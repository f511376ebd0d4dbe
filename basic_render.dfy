// The HTML generator of the basic article editor
// (js/basic-article/layout-manager.js): the dispatch on the layout id, the
// default "SEO blog" scan that pairs a MAIN_TEXT with a MAIN_IMAGE, the
// independent blocks, and one generator per dedicated layout.

module BasicRender {
  import opened Wrappers
  import opened JsString
  import opened HtmlEscape
  import opened BasicLayouts
  import opened BasicHtmlParts

  /** What `generateContentHTML` returns, or the TypeError it throws. */
  datatype Output = Output(html: string, style: string) | TypeError

  const MissingLayoutHtml: string := "<!-- 錯誤：找不到版型定義 -->"
  const SampleImageUrl: string :=
    "https://system16.webtech.com.tw/web/202500107/archive/image/article1/images/about-pic-1.jpg"

  // ---------------------------------------------------------------------
  // _generateIndependentBlockHtml
  // ---------------------------------------------------------------------

  /** `s.replace(/\n/g, "<br>")` is empty exactly when `s` is. */
  lemma BrEmpty(s: string)
    ensures NewlinesToBr(s) == [] <==> s == []
  {
    if s != [] {
      assert |s| >= |"\n"|;
    }
  }

  /** Text without line breaks is left as it is. */
  lemma {:induction false} BrPlain(s: string)
    requires '\n' !in s
    ensures NewlinesToBr(s) == s
    decreases |s|
  {
    if s != [] {
      assert s[0] != '\n';
      assert s[..1] != "\n";
      assert '\n' !in s[1..] by { assert forall x :: x in s[1..] ==> x in s; }
      BrPlain(s[1..]);
      assert s == [s[0]] + s[1..];
    }
  }

  /** `content.TEXT ? content.TEXT.replace(/\n/g, "<br>") : ""` */
  function BrText(c: map<string, string>): (r: string)
    ensures r == [] <==> OrElse(c, "TEXT", "") == []
  {
    var t := OrElse(c, "TEXT", "");
    BrEmpty(t);
    if t == [] then "" else NewlinesToBr(t)
  }

  const IndependentKinds: set<string> := {"H2", "H3", "P", "UL", "OL", "HR", "A", "TABLE", "IMAGE"}

  function UnknownBlockHtml(kind: string): string
  {
    "<!-- 未知獨立區塊類型: " + kind + " -->"
  }

  function Wrapped(tag: string, text: string): (r: string)
    ensures r == [] <==> text == []
  {
    if text == [] then "" else "    <" + tag + ">" + text + "</" + tag + ">"
  }

  /** `_generateIndependentBlockHtml(block)`: headings, paragraphs, links
    * and images are written out as given, without escaping.  A type
    * without a case gives the unknown-type comment, and a block renders as
    * nothing exactly when the field its case needs is empty. */
  function IndependentBlockHtml(b: BlockData): (r: string)
    ensures b.kind !in IndependentKinds ==> r == UnknownBlockHtml(b.kind)
    ensures b.kind in {"H2", "H3", "P"} ==> (r == [] <==> OrElse(b.content, "TEXT", "") == [])
    ensures b.kind in {"UL", "OL"} ==> (r == [] <==> IsBlank(OrElse(b.content, "LIST_ITEMS", "")))
    ensures b.kind == "A" ==> (r == [] <==> OrElse(b.content, "HREF", "") == [] || OrElse(b.content, "TEXT", "") == [])
    ensures b.kind == "IMAGE" ==> (r == [] <==> OrElse(b.content, "URL", "") == [])
  {
    var c := b.content;
    if b.kind == "H2" then Wrapped("h2", BrText(c))
    else if b.kind == "H3" then Wrapped("h3", BrText(c))
    else if b.kind == "P" then Wrapped("p", BrText(c))
    else if b.kind == "UL" then ListHtml(OrElse(c, "LIST_ITEMS", ""), "", "ul")
    else if b.kind == "OL" then ListHtml(OrElse(c, "LIST_ITEMS", ""), "", "ol")
    else if b.kind == "HR" then "    <hr class=\"default-hr\">"
    else if b.kind == "A" then
      var href := OrElse(c, "HREF", "");
      var text := OrElse(c, "TEXT", "");
      if href != [] && text != [] then "    <a href=\"" + href + "\" class=\"article-link\">" + text + "</a>" else ""
    else if b.kind == "TABLE" then
      // `MARKDOWN || blockContent`: without a markdown string the table
      // helper is handed an object and reports an empty table.
      TableHtml(OrElse(c, "MARKDOWN", ""))
    else if b.kind == "IMAGE" then
      var url := OrElse(c, "URL", "");
      if url != [] then "    <img src=\"" + url + "\" alt=\"" + OrElse(c, "ALT", "圖片描述") + "\" class=\"dynamic-image\">" else ""
    else UnknownBlockHtml(b.kind)
  }

  /** A one-line paragraph, heading or link text reaches the page exactly as
    * typed: markup in it is not escaped. */
  lemma IndependentUnescaped(b: BlockData, tag: string)
    requires b.kind in {"H2", "H3", "P"} && tag == ToLower(b.kind)
    requires "TEXT" in b.content && b.content["TEXT"] != [] && '\n' !in b.content["TEXT"]
    ensures IndependentBlockHtml(b) == "    <" + tag + ">" + b.content["TEXT"] + "</" + tag + ">"
  {
    BrPlain(b.content["TEXT"]);
    if b.kind == "H2" {
      assert ToLower("H2") == "h2" by { assert ToLower("H2") == [LowerChar('H')] + ToLower("2"); }
    } else if b.kind == "H3" {
      assert ToLower("H3") == "h3" by { assert ToLower("H3") == [LowerChar('H')] + ToLower("3"); }
    } else {
      assert ToLower("P") == "p" by { assert ToLower("P") == [LowerChar('P')] + ToLower([]); }
    }
  }

  // ---------------------------------------------------------------------
  // _generateDefaultSeoBlogHTML: the pairing scan
  // ---------------------------------------------------------------------

  predicate IsMain(kind: string) { kind == "MAIN_TEXT" || kind == "MAIN_IMAGE" }

  /** The kind a main block looks for. */
  function OtherMain(kind: string): (r: string)
    ensures IsMain(kind) ==> IsMain(r) && r != kind
  {
    if kind == "MAIN_TEXT" then "MAIN_IMAGE" else "MAIN_TEXT"
  }

  /** The index of the first block of `kind` at or after `from`, or -1. */
  function FindFrom(data: seq<BlockData>, from: nat, kind: string): (r: int)
    requires from <= |data|
    ensures r == -1 || (from <= r < |data| && data[r].kind == kind)
    ensures forall j :: from <= j < |data| && (r < 0 || j < r) ==> data[j].kind != kind
    decreases |data| - from
  {
    if from == |data| then -1
    else if data[from].kind == kind then from
    else FindFrom(data, from + 1, kind)
  }

  /** The partner of the block at `i`: for a main block, the first later
    * block of the other main kind; -1 when there is none or the block is
    * not a main block. */
  function Partner(data: seq<BlockData>, i: nat): (j: int)
    requires i < |data|
    ensures j == -1 || (i < j < |data| && IsMain(data[i].kind) && data[j].kind == OtherMain(data[i].kind)
                        && forall k :: i < k < j ==> data[k].kind != OtherMain(data[i].kind))
    ensures j == -1 && IsMain(data[i].kind) ==> forall k :: i < k < |data| ==> data[k].kind != OtherMain(data[i].kind)
  {
    if IsMain(data[i].kind) then FindFrom(data, i + 1, OtherMain(data[i].kind)) else -1
  }

  /** Where the scan goes on after the block at `i`: past the partner when
    * there is one, otherwise to the next block. */
  function NextCursor(data: seq<BlockData>, i: nat): (n: nat)
    requires i < |data|
    ensures i < n <= |data|
  {
    var j := Partner(data, i);
    if j >= 0 then j + 1 else i + 1
  }

  function BlockClass(layoutId: string): string
  {
    if layoutId == "article-02" then "article-block-02"
    else if layoutId == "article-03" then "article-block-03 "
    else "article-block-01 "
  }

  function GridClass(layoutId: string): string
  {
    if layoutId == "article-01" then "column-one row-gap-2" else "column-half column-gap-5 row-gap-2"
  }

  /** The image of a pair: nothing when its URL is flagged as removed. */
  function PairImage(text: BlockData, image: BlockData): (r: string)
    ensures r == [] <==> "URL" in image.removedFields
  {
    if "URL" in image.removedFields then ""
    else
      var alt := OrElse(image.content, "ALT", OrElse(text.content, "H2", "範例圖片描述"));
      "<img src=\"" + OrElse(image.content, "URL", SampleImageUrl) + "\" alt=\"" + alt + "\">"
  }

  function MainTitleLine(c: map<string, string>): string
  {
    var tag := OrElse(c, "H2_TAG", "h2");
    "            <" + tag + " class=\"main-title \">" + Escape(OrElse(c, "H2", "區塊主標題")) + "</" + tag + ">"
  }

  function SubTitleLine(c: map<string, string>): string
  {
    var tag := OrElse(c, "H3_TAG", "h3");
    "            <" + tag + " class=\"sub-title \">" + Escape(OrElse(c, "H3", "區塊副標題")) + "</" + tag + ">"
  }

  /** The section-title lines of the text box: a removed H2 or H3 loses its
    * heading, and the whole div goes only when both are removed. */
  function TitleBox(text: BlockData): (r: seq<string>)
    ensures r == [] <==> "H2" in text.removedFields && "H3" in text.removedFields
    ensures r != [] ==>
      |r| == 2 + (if "H2" in text.removedFields then 0 else 1) + (if "H3" in text.removedFields then 0 else 1)
    ensures r != [] && "H2" !in text.removedFields ==> r[1] == MainTitleLine(text.content)
    ensures r != [] && "H3" !in text.removedFields ==> r[|r| - 2] == SubTitleLine(text.content)
  {
    var rf := text.removedFields;
    if "H2" in rf && "H3" in rf then []
    else
      var h2 := if "H2" in rf then [] else [MainTitleLine(text.content)];
      var h3 := if "H3" in rf then [] else [SubTitleLine(text.content)];
      ["        <div class=\"section-title section-title-bottom \">"] + h2 + h3 + ["        </div>"]
  }

  /** The description line of the text box: none when P is removed. */
  function DescriptionBox(text: BlockData): (r: seq<string>)
    ensures r == [] <==> "P" in text.removedFields
    ensures r != [] ==> |r| == 1
  {
    if "P" in text.removedFields then []
    else ["        <div class=\"description mt-2\">" + ComplexDescription(OrElse(text.content, "P", "")) + "</div>"]
  }

  /** The blocks between the two halves of a pair, rendered on their own. */
  function AdjacentHtml(between: seq<BlockData>): string
  {
    Join(seq(|between|, k requires 0 <= k < |between| => IndependentBlockHtml(between[k])), "\n")
  }

  function TextBox(text: BlockData, adjacent: string): string
  {
    Join(["      <div class=\"text-box\">"] + TitleBox(text) + DescriptionBox(text)
         + (if adjacent != [] then [adjacent] else []) + ["      </div>"], "\n")
  }

  function ImageBox(imageHtml: string): string
  {
    "      <div class=\"image-box\">\n        " + imageHtml + "\n      </div>"
  }

  /** Three opening pieces, two boxes and three closing pieces: the boxes
    * are the fourth and fifth. */
  lemma BoxesInFrame(head: seq<string>, first: string, second: string, tail: seq<string>)
    requires |head| == 3 && |tail| == 3
    ensures var r := head + [first, second] + tail;
      |r| == 8 && r[3] == first && r[4] == second
  {
  }

  /** The eight pieces of a paired block; article-03 puts the image first. */
  function PairHtml(text: BlockData, image: BlockData, between: seq<BlockData>, layoutId: string): (r: seq<string>)
    ensures |r| == 8
    ensures r[3] == (if layoutId == "article-03" then ImageBox(PairImage(text, image)) else TextBox(text, AdjacentHtml(between)))
    ensures r[4] == (if layoutId == "article-03" then TextBox(text, AdjacentHtml(between)) else ImageBox(PairImage(text, image)))
  {
    var textBox := TextBox(text, AdjacentHtml(between));
    var imageBox := ImageBox(PairImage(text, image));
    var first := if layoutId == "article-03" then imageBox else textBox;
    var second := if layoutId == "article-03" then textBox else imageBox;
    var head := ["<div class=\"innerpage\">",
                 "  <div class=\"article-block " + BlockClass(layoutId) + "\">",
                 "    <div class=\"d-grid " + GridClass(layoutId) + "\">"];
    var tail := ["    </div>", "  </div>", "</div>"];
    BoxesInFrame(head, first, second, tail);
    head + [first, second] + tail
  }

  /** The text half of the pair formed by the main blocks at `i` and `j`. */
  function TextHalf(data: seq<BlockData>, i: nat, j: nat): BlockData
    requires i < j < |data|
  {
    if data[i].kind == "MAIN_TEXT" then data[i] else data[j]
  }

  function ImageHalf(data: seq<BlockData>, i: nat, j: nat): BlockData
    requires i < j < |data|
  {
    if data[i].kind == "MAIN_TEXT" then data[j] else data[i]
  }

  /** The pieces the scan pushes from cursor `i` on, `single` rendering a
    * block on its own and `pair` a text half, an image half and the blocks
    * between them. */
  function Scan(data: seq<BlockData>, single: BlockData -> string,
                pair: (BlockData, BlockData, seq<BlockData>) -> seq<string>, i: nat): seq<string>
    requires i <= |data|
    decreases |data| - i
  {
    if i == |data| then []
    else
      var j := Partner(data, i);
      if j >= 0 then pair(TextHalf(data, i, j), ImageHalf(data, i, j), data[i + 1..j]) + Scan(data, single, pair, j + 1)
      else [single(data[i])] + Scan(data, single, pair, i + 1)
  }

  function PairRenderer(layoutId: string): (BlockData, BlockData, seq<BlockData>) -> seq<string>
  {
    (text, image, between) => PairHtml(text, image, between, layoutId)
  }

  /** The blocks each step of the scan consumes, from cursor `i` on. */
  function Segments(data: seq<BlockData>, i: nat): seq<seq<BlockData>>
    requires i <= |data|
    decreases |data| - i
  {
    if i == |data| then []
    else
      var n := NextCursor(data, i);
      [data[i..n]] + Segments(data, n)
  }

  function Concat(ss: seq<seq<BlockData>>): seq<BlockData>
  {
    if ss == [] then [] else ss[0] + Concat(ss[1..])
  }

  /** Every block is consumed by exactly one step, in order: the segments
    * put back together are the blocks from `i` on. */
  lemma {:induction false} SegmentsTile(data: seq<BlockData>, i: nat)
    requires i <= |data|
    ensures Concat(Segments(data, i)) == data[i..]
    decreases |data| - i
  {
    if i < |data| {
      var n := NextCursor(data, i);
      SegmentsTile(data, n);
      var ss := Segments(data, i);
      assert ss[1..] == Segments(data, n);
      assert data[i..] == data[i..n] + data[n..];
    }
  }

  /** `_generateDefaultSeoBlogHTML(data, layoutId)`. */
  function SeoBlog(data: seq<BlockData>, layoutId: string): (r: Output)
    ensures r.Output? && r.style == layoutId
  {
    Output(Join(Scan(data, IndependentBlockHtml, PairRenderer(layoutId), 0), "\n"), layoutId)
  }

  /** Without main blocks every block is rendered on its own, in order. */
  lemma {:induction false} NoMainsIndependent(data: seq<BlockData>, single: BlockData -> string,
                                              pair: (BlockData, BlockData, seq<BlockData>) -> seq<string>, i: nat)
    requires i <= |data|
    requires forall k :: i <= k < |data| ==> !IsMain(data[k].kind)
    ensures Scan(data, single, pair, i) == seq(|data| - i, k requires 0 <= k < |data| - i => single(data[i + k]))
    decreases |data| - i
  {
    if i < |data| {
      NoMainsIndependent(data, single, pair, i + 1);
      var r := Scan(data, single, pair, i);
      assert r == [single(data[i])] + Scan(data, single, pair, i + 1);
    }
  }

  /** A main block without a partner later on is rendered on its own and
    * the scan resumes at the very next block; on its own a MAIN_TEXT or
    * MAIN_IMAGE is the unknown-type comment. */
  lemma UnpairedMain(data: seq<BlockData>, layoutId: string, i: nat)
    requires i < |data| && IsMain(data[i].kind)
    requires forall k :: i < k < |data| ==> data[k].kind != OtherMain(data[i].kind)
    ensures Scan(data, IndependentBlockHtml, PairRenderer(layoutId), i)
            == [UnknownBlockHtml(data[i].kind)] + Scan(data, IndependentBlockHtml, PairRenderer(layoutId), i + 1)
  {
    var j := FindFrom(data, i + 1, OtherMain(data[i].kind));
    assert j < 0;
  }

  /** A main block with a partner: the pair's pieces, then the scan
    * resumes after the partner. */
  lemma PairedMain(data: seq<BlockData>, single: BlockData -> string,
                   pair: (BlockData, BlockData, seq<BlockData>) -> seq<string>, i: nat, j: nat)
    requires i < j < |data| && IsMain(data[i].kind) && data[j].kind == OtherMain(data[i].kind)
    requires forall k :: i < k < j ==> data[k].kind != OtherMain(data[i].kind)
    ensures Partner(data, i) == j
    ensures Scan(data, single, pair, i)
            == pair(TextHalf(data, i, j), ImageHalf(data, i, j), data[i + 1..j]) + Scan(data, single, pair, j + 1)
  {
    PartnerIs(data, i, j);
  }

  lemma PartnerIs(data: seq<BlockData>, i: nat, j: nat)
    requires i < j < |data| && IsMain(data[i].kind) && data[j].kind == OtherMain(data[i].kind)
    requires forall k :: i < k < j ==> data[k].kind != OtherMain(data[i].kind)
    ensures Partner(data, i) == j
  {
    var f := FindFrom(data, i + 1, OtherMain(data[i].kind));
    assert f == j;
  }

  /** The look-ahead of one main block: walks forward collecting the blocks
    * in between until the missing half turns up. */
  method FindPartner(data: seq<BlockData>, i: nat) returns (textIndex: int, imageIndex: int, between: seq<BlockData>)
    requires i < |data| && IsMain(data[i].kind)
    ensures var j := FindFrom(data, i + 1, OtherMain(data[i].kind));
      (textIndex >= 0 && imageIndex >= 0 <==> j >= 0)
      && (j >= 0 ==> between == data[i + 1..j]
                     && (data[i].kind == "MAIN_TEXT" ==> textIndex == i && imageIndex == j)
                     && (data[i].kind == "MAIN_IMAGE" ==> imageIndex == i && textIndex == j))
  {
    var kind := data[i].kind;
    textIndex := if kind == "MAIN_TEXT" then i else -1;
    imageIndex := if kind == "MAIN_IMAGE" then i else -1;
    between := [];
    var next := i + 1;
    ghost var o := OtherMain(kind);
    while next < |data|
      invariant i + 1 <= next <= |data|
      invariant between == data[i + 1..next]
      invariant FindFrom(data, i + 1, o) == FindFrom(data, next, o)
      invariant textIndex == (if kind == "MAIN_TEXT" then i else -1)
      invariant imageIndex == (if kind == "MAIN_IMAGE" then i else -1)
      decreases |data| - next
    {
      var nb := data[next];
      if nb.kind == "MAIN_IMAGE" && imageIndex < 0 {
        imageIndex := next;
        return;
      } else if nb.kind == "MAIN_TEXT" && textIndex < 0 {
        textIndex := next;
        return;
      } else {
        between := between + [nb];
        next := next + 1;
      }
    }
  }

  lemma AppendStep(content: seq<string>, piece: seq<string>, rest: seq<string>, total: seq<string>)
    requires content + (piece + rest) == total
    ensures (content + piece) + rest == total
  {
  }

  /** The scan itself, with its cursor `i` and its `content` array;
    * `single` and `pair` do the rendering. */
  method ScanBlocks(data: seq<BlockData>, single: BlockData -> string,
                    pair: (BlockData, BlockData, seq<BlockData>) -> seq<string>) returns (content: seq<string>)
    ensures content == Scan(data, single, pair, 0)
  {
    content := [];
    var i: nat := 0;
    while i < |data|
      invariant i <= |data|
      invariant content + Scan(data, single, pair, i) == Scan(data, single, pair, 0)
      decreases |data| - i
    {
      var block := data[i];
      if IsMain(block.kind) {
        var textIndex, imageIndex, between := FindPartner(data, i);
        if textIndex >= 0 && imageIndex >= 0 {
          var j := if textIndex > imageIndex then textIndex else imageIndex;
          var pieces := pair(data[textIndex], data[imageIndex], between);
          PairedMain(data, single, pair, i, j);
          AppendStep(content, pieces, Scan(data, single, pair, j + 1), Scan(data, single, pair, 0));
          content := content + pieces;
          i := j + 1;
          continue;
        }
      }
      AppendStep(content, [single(block)], Scan(data, single, pair, i + 1), Scan(data, single, pair, 0));
      content := content + [single(block)];
      i := i + 1;
    }
    assert content + [] == content;
  }

  /** `_generateDefaultSeoBlogHTML(data, layoutId)`: the scan, with the
    * pieces joined by line breaks. */
  method DefaultSeoBlogHtml(data: seq<BlockData>, layoutId: string) returns (out: Output)
    ensures out == SeoBlog(data, layoutId)
  {
    var content := ScanBlocks(data, IndependentBlockHtml, PairRenderer(layoutId));
    out := Output(Join(content, "\n"), layoutId);
  }
}

// The dedicated per-layout generators and the dispatch of
// `generateContentHTML`.
module BasicGenerators {
  import opened Wrappers
  import opened JsString
  import opened HtmlEscape
  import opened BasicLayouts
  import opened BasicHtmlParts
  import opened BasicRender
  import opened BasicDispatch
  import Selection

  // ---------------------------------------------------------------------
  // Shared pieces
  // ---------------------------------------------------------------------

  function KindIs(kind: string): BlockData -> bool { (b: BlockData) => b.kind == kind }

  /** `data.filter(block => block.type === kind)` */
  function OfKind(data: seq<BlockData>, kind: string): (r: seq<BlockData>)
    ensures |r| <= |data|
    ensures forall k :: 0 <= k < |r| ==> r[k].kind == kind
    ensures forall b :: b in data && b.kind == kind ==> b in r
    ensures Selection.Selects(r, data, KindIs(kind))
  {
    if data == [] then []
    else
      var rest := OfKind(data[1..], kind);
      Selection.SelectsCons(data[0], data[1..], KindIs(kind), rest);
      assert data == [data[0]] + data[1..];
      (if data[0].kind == kind then [data[0]] else []) + rest
  }

  /** The rows of a layout joined by line breaks, or the layout's comment
    * when there are none (`rowsHTML || comment`; every row is non-empty). */
  function RowsOr(rows: seq<string>, comment: string): (r: string)
    requires forall k :: 0 <= k < |rows| ==> rows[k] != []
    ensures rows == [] ==> r == comment
    ensures rows != [] ==> r == Join(rows, "\n")
  {
    JoinNonEmpty(rows, "\n");
    var joined := Join(rows, "\n");
    if joined != [] then joined else comment
  }

  /** Joining non-empty pieces gives the empty string only for no pieces. */
  lemma {:induction false} JoinNonEmpty(rows: seq<string>, sep: string)
    requires forall k :: 0 <= k < |rows| ==> rows[k] != []
    ensures Join(rows, sep) == [] <==> rows == []
    decreases |rows|
  {
    if |rows| > 1 {
      assert rows[0] != [];
    }
  }

  /** The frame most layouts share: the opening lines, the section title,
    * the row area and the closing lines. */
  function Frame(blockLine: string, titleHtml: string, areaLine: string, body: string): string
  {
    "<div class=\"innerpage\">\n" + blockLine + "\n" + titleHtml + "\n" + areaLine + "\n" + body
    + "\n        </div>\n    </div>\n</div>"
  }

  function Desc(c: map<string, string>): string
  {
    ComplexDescription(OrElse(c, "DESC", ""))
  }

  /** The 1-based position of a row among the rows of its type, padded to
    * two digits. */
  function RowNumber(index: nat): string
  {
    PadStart2(index + 1)
  }

  /** Distinct rows are numbered distinctly, whatever their content. */
  lemma RowNumbersDistinct(i: nat, j: nat)
    requires i != j
    ensures RowNumber(i) != RowNumber(j)
  {
    PadStart2Denotes(i + 1);
    PadStart2Denotes(j + 1);
  }

  /** A part of a row that is left out when `field` is flagged as removed
    * (`if (!block.removedFields?.FIELD) { part = … }`). */
  function Part(b: BlockData, field: string, html: string): (r: string)
    requires html != []
    ensures r == [] <==> field in b.removedFields
    ensures r != [] ==> r == html
  {
    if field in b.removedFields then "" else html
  }

  /** `<tag class…>text</tag>` */
  function Heading(tag: string, attrs: string, text: string): string
  {
    "<" + tag + attrs + ">" + text + "</" + tag + ">"
  }

  function TitleTag(c: map<string, string>): string { OrElse(c, "TITLE_TAG", "h3") }

  /** The optional subtitle of article-04 and article-09: present exactly
    * when SUBTITLE is non-empty. */
  function OptionalSubtitle(c: map<string, string>, attrs: string): (r: string)
    ensures r == [] <==> OrElse(c, "SUBTITLE", "") == []
  {
    var s := OrElse(c, "SUBTITLE", "");
    if s == [] then "" else Heading(OrElse(c, "SUBTITLE_TAG", "h4"), attrs, Escape(s))
  }

  /** The number a row displays: `list-number` (article-08) or `number`
    * (article-14) spans holding the given text. */
  predicate ShowsNumber(row: string, span: string, number: string)
  {
    exists p :: 0 <= p <= |row| && StartsWith(row[p..], span + number + "</span>")
  }

  lemma ShowsNumberAt(head: string, span: string, number: string, tail: string)
    ensures ShowsNumber(head + span + number + "</span>" + tail, span, number)
  {
    var row := head + span + number + "</span>" + tail;
    var w := span + number + "</span>";
    assert row == head + (w + tail);
    assert row[|head|..] == w + tail;
    assert (w + tail)[..|w|] == w;
  }

  // ---------------------------------------------------------------------
  // article-07: _generateAlternatingImageTextHTML
  // ---------------------------------------------------------------------

  function AltRow(b: BlockData): (r: string)
    ensures r != []
  {
    var c := b.content;
    var image := Part(b, "MAIN_URL", "<div class=\"image-box\"><img class=\"cover\" src=\"" + OrElse(c, "MAIN_URL", SampleImageUrl)
                                     + "\" alt=\"" + OrElse(c, "MAIN_ALT", "image description") + "\"></div>");
    var subtitle := Part(b, "SUBTITLE", Heading(OrElse(c, "SUBTITLE_TAG", "h3"), " class=\"item-title\"", Escape(OrElse(c, "SUBTITLE", "副標題"))));
    var text := "<div class=\"text-box\">" + subtitle + "<div class=\"description\">" + Desc(c) + "</div></div>";
    var row := if OrElse(c, "POSITION", "") == "image-right" then text + image else image + text;
    "<div class=\"list-row d-grid column-half \">" + row + "</div>"
  }

  function AlternatingImageTextHtml(data: seq<BlockData>): string
  {
    var rows := OfKind(data, "ALT_ROW");
    var html := seq(|rows|, k requires 0 <= k < |rows| => AltRow(rows[k]));
    Frame("    <div class=\"article-block article-block-07\">", ExtractTitleHtml(data),
          "        <div class=\"info-list-area \">", RowsOr(html, "<!-- 請至少新增一個圖文列 -->"))
  }

  // ---------------------------------------------------------------------
  // article-08: _generateStickyTextListHTML
  // ---------------------------------------------------------------------

  const StickyHead: string :=
    "\n            <div class=\"list-row\">\n                <div class=\"list-title-box \">\n                    "
  const StickySpan: string := "<span class=\"list-number\">"

  function StickyTail(b: BlockData): string
  {
    var c := b.content;
    var title := Part(b, "TITLE", Heading(TitleTag(c), " class=\"list-title  \"", Escape(OrElse(c, "TITLE", "項目標題"))));
    var s := OrElse(c, "SUBTITLE", "");
    var subtitle := if "SUBTITLE" in b.removedFields || s == [] then ""
                    else Heading(OrElse(c, "SUBTITLE_TAG", "h4"), " class=\"list-sub-title\"", Escape(s));
    "\n                    " + title + "\n                    " + subtitle
    + "\n                </div>\n                <div class=\"description\">" + Desc(c) + "</div>\n            </div>"
  }

  /** The row of the `index`-th STICKY_TEXT_ROW block. */
  function StickyRow(b: BlockData, index: nat): (r: string)
    ensures r != []
  {
    StickyHead + StickySpan + RowNumber(index) + "</span>" + StickyTail(b)
  }

  function StickyRows(data: seq<BlockData>): (r: seq<string>)
    ensures |r| == |OfKind(data, "STICKY_TEXT_ROW")|
  {
    var rows := OfKind(data, "STICKY_TEXT_ROW");
    seq(|rows|, k requires 0 <= k < |rows| => StickyRow(rows[k], k))
  }

  /** Each row shows its 1-based position among the STICKY_TEXT_ROW blocks,
    * zero-padded, whatever the block holds; so no two rows share a number. */
  lemma StickyRowsNumbered(data: seq<BlockData>)
    ensures forall k :: 0 <= k < |StickyRows(data)| ==> ShowsNumber(StickyRows(data)[k], StickySpan, RowNumber(k))
  {
    var rows := OfKind(data, "STICKY_TEXT_ROW");
    forall k | 0 <= k < |rows| ensures ShowsNumber(StickyRows(data)[k], StickySpan, RowNumber(k)) {
      ShowsNumberAt(StickyHead, StickySpan, RowNumber(k), StickyTail(rows[k]));
    }
  }

  function StickyTextListHtml(data: seq<BlockData>): string
  {
    Frame("    <div class=\"article-block article-block-08\">", ExtractTitleHtml(data),
          "        <div class=\"info-list-area\">", RowsOr(StickyRows(data), "<!-- 請至少新增一個純文字列 -->"))
  }

  // ---------------------------------------------------------------------
  // article-06: _generateQAListHTML
  // ---------------------------------------------------------------------

  /** `s.replace(/<p>|<\/p>/g, '')` */
  function StripParagraphTags(s: string): string
    decreases |s|
  {
    if |s| >= 3 && s[..3] == "<p>" then StripParagraphTags(s[3..])
    else if |s| >= 4 && s[..4] == "</p>" then StripParagraphTags(s[4..])
    else if s == [] then []
    else [s[0]] + StripParagraphTags(s[1..])
  }

  /** Text without `<` passes through the tag stripping unchanged. */
  lemma {:induction false} StripPlainPrefix(x: string, t: string)
    requires '<' !in x
    ensures StripParagraphTags(x + t) == x + StripParagraphTags(t)
    decreases |x|
  {
    if x != [] {
      var s := x + t;
      assert s[0] == x[0] && x[0] != '<';
      assert |s| >= 3 ==> s[..3][0] == x[0];
      assert |s| >= 4 ==> s[..4][0] == x[0];
      assert s[1..] == x[1..] + t;
      assert '<' !in x[1..] by { assert forall ch :: ch in x[1..] ==> ch in x; }
      StripPlainPrefix(x[1..], t);
      calc {
        StripParagraphTags(s);
        [s[0]] + StripParagraphTags(s[1..]);
        [x[0]] + (x[1..] + StripParagraphTags(t));
        { assert x == [x[0]] + x[1..]; }
        x + StripParagraphTags(t);
      }
    } else {
      assert x + t == t;
    }
  }

  /** In a QA row a description paragraph keeps its escaped text and loses
    * only its own `<p>` tags. */
  lemma QaParagraphUntagged(line: string)
    ensures StripParagraphTags(ParaLine(line)) == Escape(line) + "\n"
  {
    var e := Escape(line);
    EscapeSafe(line);
    assert '<' !in e by {
      forall k | 0 <= k < |e| ensures e[k] != '<' { }
    }
    var s := ParaLine(line);
    assert s == "<p>" + (e + "</p>\n");
    assert s[..3] == "<p>" && s[3..] == e + "</p>\n";
    StripPlainPrefix(e, "</p>\n");
    var close := "</p>\n";
    assert close[..3][1] == '/';
    assert close[..4] == "</p>" && close[4..] == "\n";
    assert StripParagraphTags(close) == StripParagraphTags("\n");
    assert StripParagraphTags("\n") == "\n" by {
      assert "\n"[1..] == [];
    }
  }

  function QaRow(b: BlockData): (r: string)
    ensures r != []
  {
    var c := b.content;
    // The question is written out without escaping.
    var title := Part(b, "TITLE", Heading(TitleTag(c), " class=\"faq-title\"", OrElse(c, "TITLE", "請輸入題目")));
    "\n            <div class=\"faq-row\">\n                <div class=\"faq-q-icon\">Q</div>\n                " + title
    + "\n                <div class=\"faq-description\">" + StripParagraphTags(Desc(c)) + "</div> \n            </div>"
  }

  function QaListHtml(data: seq<BlockData>): string
  {
    var rows := OfKind(data, "QA_ROW");
    var html := seq(|rows|, k requires 0 <= k < |rows| => QaRow(rows[k]));
    Frame("    <div class=\"article-block article-block-06\">", ExtractTitleHtml(data),
          "        <div class=\"faq-list-area\">", RowsOr(html, "<!-- 請至少新增一個QA項目 -->"))
  }

  // ---------------------------------------------------------------------
  // article-11: _generateTwoColumnImageIconListHTML
  // ---------------------------------------------------------------------

  const BrandIconUrl: string := "https://webtech.com.tw/asset/brand-visual/images/brand-visual-05.svg"
  const SeoIconUrl: string := "https://webtech.com.tw/asset/seohealth/images/seo-icon03.webp?0928"

  function IconItem(b: BlockData, index: nat): (r: string)
    ensures r != []
  {
    var c := b.content;
    var icon := Part(b, "ICON_URL", "<div class=\"icon\"><img src=\"" + OrElse(c, "ICON_URL", BrandIconUrl)
                                    + "\" alt=\"" + OrElse(c, "ICON_ALT", "圖片alt") + "\"></div>");
    var d := OrElse(c, "DESC", "");
    var description := if d != [] then NewlinesToBr(Escape(d))
                       else "ㄤ~ㄤ~ㄤ~小叮噹幫我實現所有~的願望ㄤ~ㄤ~ㄤ~小叮噹幫我實現所有~的願望ㄤ~ㄤ~ㄤ~小叮噹幫我實現所有~的願望...";
    "\n                    <div class=\"icon-item icon-item-" + NatToString(index + 1) + "\"> \n                        " + icon
    + "\n                        <div class=\"text\"><p class=\"description\">" + description + "</p></div>\n                    </div>"
  }

  function ImageIconListHtml(data: seq<BlockData>): string
  {
    var m := FindKind(data, "MAIN_IMAGE");
    var url := if m >= 0 then OrElse(data[m].content, "URL", SampleImageUrl) else SampleImageUrl;
    var alt := if m >= 0 then OrElse(data[m].content, "ALT", "Reliable | Innovative | Sustainable.")
               else "Reliable | Innovative | Sustainable.";
    var items := OfKind(data, "TWO_COL_IMAGE_ICON_ITEM");
    var html := seq(|items|, k requires 0 <= k < |items| => IconItem(items[k], k));
    Join(["<div class=\"innerpage\">", "    <div class=\"article-block article-block-11\">", ExtractTitleHtml(data),
          "        <div class=\"info-list-area d-grid column-half gap-2\">", "            <div class=\"image-box\">",
          "                <img class=\"cover\" src=\"" + url + "\" alt=\"" + alt + "\">", "            </div>",
          "            <div class=\"icon-box\">", RowsOr(html, "<!-- 請至少新增一個右側項目 -->"), "            </div>",
          "        </div>", "    </div>", "</div>"], "\n")
  }

  // ---------------------------------------------------------------------
  // article-13: _generateThreeColumnIconTitleDescHrHTML
  // ---------------------------------------------------------------------

  const NoCardsWarning: string := "<!-- 警告：請至少新增一個卡片區塊 -->"

  function IconTitleCard(b: BlockData): (r: string)
    ensures r != []
  {
    var c := b.content;
    var image := Part(b, "URL", "<div class=\"image-box\"><img alt=\"" + OrElse(c, "ALT", OrElse(c, "TITLE", "圖片描述"))
                                + "\" src=\"" + OrElse(c, "URL", SeoIconUrl) + "\"></div>");
    var title := Part(b, "TITLE", Heading(TitleTag(c), " class=\"item-title \"", Escape(OrElse(c, "TITLE", "項目標題"))));
    "\n                <div class=\"list-row\">\n                    " + image + "\n                    <div class=\"text-box\">\n                        "
    + title + "\n                        <div class=\"description\">" + Desc(c) + "</div>\n                    </div>\n                </div>"
  }

  function IconTitleCardsHtml(data: seq<BlockData>): string
  {
    var cards := OfKind(data, "ICON_TITLE_CARD");
    if cards == [] then NoCardsWarning
    else
      var html := seq(|cards|, k requires 0 <= k < |cards| => IconTitleCard(cards[k]));
      Frame("    <div class=\"article-block article-block-13 \">", ExtractTitleHtml(data), "        <div class=\"block-cards \">",
            "            <div class=\"card-area d-grid gap-5 column-three\">" + Join(html, "\n") + "</div>")
  }

  /** Without an ICON_TITLE_CARD block article-13 is only a warning, and
    * with one it is never that warning. */
  lemma IconTitleCardsWarning(data: seq<BlockData>)
    ensures OfKind(data, "ICON_TITLE_CARD") == [] <==> IconTitleCardsHtml(data) == NoCardsWarning
  {
    var cards := OfKind(data, "ICON_TITLE_CARD");
    if cards != [] {
      var html := seq(|cards|, k requires 0 <= k < |cards| => IconTitleCard(cards[k]));
      FrameStart("    <div class=\"article-block article-block-13 \">", ExtractTitleHtml(data), "        <div class=\"block-cards \">",
                 "            <div class=\"card-area d-grid gap-5 column-three\">" + Join(html, "\n") + "</div>");
      assert |NoCardsWarning| == 23;
    }
  }

  /** Every frame is longer than any of the layouts' warning comments. */
  lemma FrameStart(blockLine: string, titleHtml: string, areaLine: string, body: string)
    ensures |Frame(blockLine, titleHtml, areaLine, body)| > 23
  {
    var head := "<div class=\"innerpage\">\n";
    var rest := blockLine + "\n" + titleHtml + "\n" + areaLine + "\n" + body + "\n        </div>\n    </div>\n</div>";
    assert Frame(blockLine, titleHtml, areaLine, body) == head + rest;
  }

  // ---------------------------------------------------------------------
  // article-05: _generateTwoColumnImageTitleDescHTML
  // ---------------------------------------------------------------------

  function ImageTitleCard(b: BlockData): (r: string)
    ensures r != []
  {
    var c := b.content;
    var image := Part(b, "URL", "<div class=\"image-box\"><img class=\"cover\" src=\"" + OrElse(c, "URL", SampleImageUrl)
                                + "\" alt=\"" + OrElse(c, "ALT", OrElse(c, "TITLE", "項目圖片")) + "\"></div>");
    var title := Part(b, "TITLE", Heading(TitleTag(c), " class=\"list-title\"", Escape(OrElse(c, "TITLE", "項目標題"))));
    "\n            <div class=\"list-row\">\n                " + image + "\n                <div class=\"text-box\">\n                    "
    + title + "\n                    <div class=\"description\">" + Desc(c) + "</div>\n                </div>\n            </div>"
  }

  function ImageTitleDescHtml(data: seq<BlockData>): string
  {
    var cards := OfKind(data, "IMAGE_TITLE_DESC_CARD");
    var html := seq(|cards|, k requires 0 <= k < |cards| => ImageTitleCard(cards[k]));
    Frame("    <div class=\"article-block article-block-05\">", ExtractTitleHtml(data),
          "        <div class=\"info-list-area d-grid column-half gap-2\">", RowsOr(html, "<!-- 請至少新增一個項目 -->"))
  }

  // ---------------------------------------------------------------------
  // article-09: _generateOneColumnListHTML (no field can be removed)
  // ---------------------------------------------------------------------

  function OneColumnItem(b: BlockData): (r: string)
    ensures r != []
  {
    OnNewLine(OneColumnText(b.content))
  }

  /** A row template starts on a new line. */
  function OnNewLine(s: string): (r: string)
    ensures r != [] && r[0] == '\n'
  {
    "\n" + s
  }

  function OneColumnText(c: map<string, string>): string
  {
    "            <div class=\" list-row d-grid column-gap-3 row-gap-2\">\n                <div class=\"image-box\"><img class=\"cover\" src=\""
    + OrElse(c, "URL", SampleImageUrl) + "\" alt=\"" + OrElse(c, "ALT", OrElse(c, "TITLE", "項目圖片"))
    + "\"></div>\n                <div class=\"text-box\">\n                    "
    + Heading(TitleTag(c), " class=\"list-title title-deco\"", Escape(OrElse(c, "TITLE", "項目標題")))
    + "\n                    " + OptionalSubtitle(c, " class=\"list-sub-title\"")
    + "\n                    <div class=\"description\">" + Desc(c) + "</div>\n                </div>\n            </div>"
  }

  function OneColumnListHtml(data: seq<BlockData>): string
  {
    var items := OfKind(data, "ONE_COLUMN_ITEM");
    var html := seq(|items|, k requires 0 <= k < |items| => OneColumnItem(items[k]));
    Frame("    <div class=\"article-block article-block-09\">", ExtractTitleHtml(data),
          "        <div class=\"info-list-area\">", RowsOr(html, "<!-- 請至少新增一個列表項目 -->"))
  }

  // ---------------------------------------------------------------------
  // article-14: _generateThreeColumnNumberCardHTML (no field can be removed)
  // ---------------------------------------------------------------------

  const NumberSpan: string := "<span class=\"number\">"

  function NumberCardHead(b: BlockData, index: nat): string
  {
    var c := b.content;
    "\n            <div class=\"card-item card-item-" + NatToString(index + 1) + "\">\n                <div class=\"image icon\"><img src=\""
    + OrElse(c, "ICON_URL", BrandIconUrl) + "\" alt=\"" + OrElse(c, "ALT", OrElse(c, "TITLE", "卡片圖示"))
    + "\"></div>\n                <div class=\"text\">\n                    <" + TitleTag(c) + " class=\"card-title\">"
  }

  function NumberCardTail(b: BlockData): string
  {
    var c := b.content;
    " " + Escape(OrElse(c, "TITLE", "卡片標題")) + "</" + TitleTag(c) + ">\n                    <div class=\"description\">"
    + Desc(c) + "</div>\n                </div>\n            </div>"
  }

  /** The card of the `index`-th NUMBER_CARD block. */
  function NumberCard(b: BlockData, index: nat): (r: string)
    ensures r != []
  {
    NumberCardHead(b, index) + NumberSpan + RowNumber(index) + "</span>" + NumberCardTail(b)
  }

  function NumberCards(data: seq<BlockData>): (r: seq<string>)
    ensures |r| == |OfKind(data, "NUMBER_CARD")|
  {
    var cards := OfKind(data, "NUMBER_CARD");
    seq(|cards|, k requires 0 <= k < |cards| => NumberCard(cards[k], k))
  }

  /** Each card shows its 1-based position among the NUMBER_CARD blocks,
    * zero-padded, whatever the block holds. */
  lemma NumberCardsNumbered(data: seq<BlockData>)
    ensures forall k :: 0 <= k < |NumberCards(data)| ==> ShowsNumber(NumberCards(data)[k], NumberSpan, RowNumber(k))
  {
    var cards := OfKind(data, "NUMBER_CARD");
    forall k | 0 <= k < |cards| ensures ShowsNumber(NumberCards(data)[k], NumberSpan, RowNumber(k)) {
      ShowsNumberAt(NumberCardHead(cards[k], k), NumberSpan, RowNumber(k), NumberCardTail(cards[k]));
    }
  }

  function NumberCardHtml(data: seq<BlockData>): string
  {
    Frame("    <div class=\"article-block article-block-14\">", ExtractTitleHtml(data),
          "        <div class=\"card-box d-grid gap-2 column-three\">", RowsOr(NumberCards(data), "<!-- 請至少新增一個數字卡片 -->"))
  }

  // ---------------------------------------------------------------------
  // article-12: _generateThreeColumnCardHTML
  // ---------------------------------------------------------------------

  function ThreeColumnCard(b: BlockData): (r: string)
    ensures r != []
  {
    var c := b.content;
    var image := Part(b, "URL", "<div class=\"image-box\"><img class=\"cover\" alt=\"" + OrElse(c, "ALT", OrElse(c, "TITLE", "卡片圖片"))
                                + "\" src=\"" + OrElse(c, "URL", SampleImageUrl) + "\"></div>");
    var title := Part(b, "TITLE", Heading(TitleTag(c), " class=\"item-title \"", Escape(OrElse(c, "TITLE", "項目標題"))));
    "\n                <div class=\"list-row\">\n                    " + image + "\n                    <div class=\"text-box\">\n                        "
    + title + "\n                        <div class=\"description\">" + Desc(c) + "</div>\n                    </div>\n                </div>"
  }

  function ThreeColumnCardHtml(data: seq<BlockData>): string
  {
    var cards := OfKind(data, "CARD");
    var html := seq(|cards|, k requires 0 <= k < |cards| => ThreeColumnCard(cards[k]));
    Frame("    <div class=\"article-block article-block-12 \">", ExtractTitleHtml(data), "        <div class=\"block-cards \">",
          "            <div class=\"card-area d-grid gap-2 column-three\">" + RowsOr(html, "<!-- 請至少新增一個卡片 -->") + "</div>")
  }

  // ---------------------------------------------------------------------
  // article-10: _generateTwoColumnIconCardHTML
  // ---------------------------------------------------------------------

  function IconCard(b: BlockData): (r: string)
    ensures r != []
  {
    var c := b.content;
    var alt := OrElse(c, "ALT", OrElse(c, "TITLE", "項目圖片"));
    var image := Part(b, "URL", "<div class=\"image-box\"><img class=\"cover\" src=\"" + OrElse(c, "URL", SampleImageUrl)
                                + "\" alt=\"" + alt + "\"></div>");
    var icon := Part(b, "ICON_URL", "<div class=\"icon\"><img src=\"" + OrElse(c, "ICON_URL", SeoIconUrl)
                                    + "\" alt=\"" + OrElse(c, "ALT", OrElse(c, "TITLE", "項目圖示")) + "\"></div>");
    var title := Part(b, "TITLE", Heading(TitleTag(c), " class=\"list-title\"", Escape(OrElse(c, "TITLE", "項目標題"))));
    "\n            <div class=\"list-row\">\n                " + image + "\n                <div class=\"text-box\">\n                    "
    + icon + "\n                    " + title + "\n                    <div class=\"description\">" + Desc(c)
    + "</div>\n                </div>\n            </div>"
  }

  function IconCardHtml(data: seq<BlockData>): string
  {
    var cards := OfKind(data, "ICON_CARD");
    var html := seq(|cards|, k requires 0 <= k < |cards| => IconCard(cards[k]));
    Frame("    <div class=\"article-block article-block-10\">", ExtractTitleHtml(data),
          "        <div class=\"info-list-area d-grid column-half gap-2\">", RowsOr(html, "<!-- 請至少新增一個項目 -->"))
  }

  // ---------------------------------------------------------------------
  // article-04: _generateTwoColumnTextCardHTML (no field can be removed)
  // ---------------------------------------------------------------------

  function TextCard(b: BlockData): (r: string)
    ensures r != []
  {
    var c := b.content;
    "\n            <div class=\"text-box\">\n                " + Heading(TitleTag(c), "", Escape(OrElse(c, "TITLE", "預設標題")))
    + "\n                " + OptionalSubtitle(c, "") + "\n                <div class=\"description\">" + Desc(c) + "</div>\n            </div>"
  }

  function TextCardHtml(data: seq<BlockData>): string
  {
    var cards := OfKind(data, "TEXT_CARD");
    var html := seq(|cards|, k requires 0 <= k < |cards| => TextCard(cards[k]));
    Frame("    <div class=\"article-block article-block-04\">", "        " + ExtractTitleHtml(data),
          "        <div class=\"d-grid column-half column-gap-5 row-gap-2\">", "            " + RowsOr(html, "<!-- 請至少新增一個純文字卡片 -->"))
  }

  // ---------------------------------------------------------------------
  // article-15: _generateCompanyInfoHTML
  // ---------------------------------------------------------------------

  const NoCompanyInfo: string := "<!-- 請在左側輸入電話、地址或信箱 -->"

  function CompanyFrame(name: string, list: string): string
  {
    "\n<div class=\"innerpage\">\n    <div class=\"article-block article-block-15\">\n        <div class=\"from-text\">\n            <h3 class=\"company-name\">"
    + name + "</h3>\n            <div class=\"company-info-list\">" + list + "</div>\n        </div>\n    </div>\n</div>"
  }

  predicate IsCompanyItem(b: BlockData) { b.kind == "COMPANY_TEXT_ITEM" || b.kind == "COMPANY_LINK_ITEM" }

  /** `data.filter(...)` on the two company item types. */
  function CompanyItems(data: seq<BlockData>): (r: seq<BlockData>)
    ensures forall k :: 0 <= k < |r| ==> IsCompanyItem(r[k])
    ensures forall b :: b in data && IsCompanyItem(b) ==> b in r
    ensures Selection.Selects(r, data, IsCompanyItem)
  {
    if data == [] then []
    else
      var rest := CompanyItems(data[1..]);
      Selection.SelectsCons(data[0], data[1..], IsCompanyItem, rest);
      assert data == [data[0]] + data[1..];
      (if IsCompanyItem(data[0]) then [data[0]] else []) + rest
  }

  /** One `<p>` line; only a link item carries its (unescaped) HREF. */
  function CompanyItem(b: BlockData): (r: string)
    ensures |r| > 0 && r[0] == '<'
  {
    var c := b.content;
    var caption := Escape(OrElse(c, "LABEL", "標題"));
    var text := Escape(OrElse(c, "TEXT", "內容"));
    if b.kind == "COMPANY_LINK_ITEM" then "<p>" + caption + "：<a href=\"" + OrElse(c, "HREF", "#") + "\">" + text + "</a></p>"
    else "<p>" + caption + "：" + text + "</p>"
  }

  /** The article-15 body, or None where the source throws: a
    * PRE_GENERATED block without `companyInfoList` (its `.trim()` is called
    * on undefined). A PRE_GENERATED block takes precedence over the
    * COMPANY_* blocks, and its list is inserted as it is. */
  function CompanyInfoHtml(data: seq<BlockData>): (r: Option<string>)
    ensures r.None? <==> var k := FindKind(data, "PRE_GENERATED"); k >= 0 && "companyInfoList" !in data[k].content
  {
    var k := FindKind(data, "PRE_GENERATED");
    if k >= 0 then
      var c := data[k].content;
      if "companyInfoList" !in c then None
      else
        var list := c["companyInfoList"];
        Some(CompanyFrame(EscapeValue(Get(c, "companyName")),
                          if !IsBlank(list) then "\n" + list + "\n            " else "\n                " + NoCompanyInfo + "\n            "))
    else
      var n := FindKind(data, "COMPANY_NAME");
      var name := if n >= 0 then OrElse(data[n].content, "COMPANY_NAME", "公司名稱") else "公司名稱";
      Some(CompanyFrame(Escape(name), "\n            " + CompanyInfoList(CompanyItems(data)) + "\n            "))
  }

  /** The item lines, or the fallback comment exactly when there is no
    * company item. */
  function CompanyInfoList(items: seq<BlockData>): (r: string)
    ensures items == [] <==> r == "    " + NoCompanyInfo
  {
    var rows := seq(|items|, j requires 0 <= j < |items| => CompanyItem(items[j]));
    var list := Join(rows, "\n            ");
    JoinNonEmpty(rows, "\n            ");
    if list != [] then
      JoinHead(rows, "\n            ");
      assert ("    " + NoCompanyInfo)[0] == ' ';
      list
    else "    " + NoCompanyInfo
  }

  lemma JoinHead(rows: seq<string>, sep: string)
    requires rows != [] && rows[0] != []
    ensures Join(rows, sep) != [] && Join(rows, sep)[0] == rows[0][0]
  {
    if |rows| > 1 {
      assert Join(rows, sep) == rows[0] + (sep + Join(rows[1..], sep));
    }
  }

  // ---------------------------------------------------------------------
  // article-16: _generateTableLayoutHTML
  // ---------------------------------------------------------------------

  const EnterTableComment: string := "<!-- 請輸入表格內容 -->"
  const BadTableComment: string := "<!-- 表格格式錯誤或內容為空 -->"

  function TableLayoutWrap(trs: string): string
  {
    OnNewLine("        <div class=\"rwd-table\">\n            <div class=\"rwd-table-compare\">\n                <div class=\"table\">\n                    <table>\n                        <tbody>\n"
    + trs + "\n                        </tbody>\n                    </table>\n                </div>\n            </div>\n        </div>")
  }

  /** The table of article-16. Unlike `_generateTableHtml`, an empty field
    * and a malformed one get different comments, and a field of white
    * space only counts as malformed. */
  function TableLayoutBody(markdown: string): string
  {
    if markdown == [] then EnterTableComment
    else match ParseTable(markdown)
      case Rows(rows) => TableLayoutWrap(Join(RowsHtml(rows, "                            "), "\n"))
      case _ => BadTableComment
  }

  lemma TableLayoutComments(markdown: string)
    ensures markdown == [] ==> TableLayoutBody(markdown) == EnterTableComment
    ensures markdown != [] ==>
      (TableLayoutBody(markdown) == BadTableComment <==>
       var lines := PipeLines(Split(markdown, '\n')); |lines| < 2 || !IsDelimiterRow(lines[1]))
  {
    if markdown != [] {
      var t := ParseTable(markdown);
      if t.EmptyTable? {
        BlankNoPipeLines(markdown);
      } else if t.Rows? {
        WrapNotComment(Join(RowsHtml(t.rows, "                            "), "\n"));
      }
    }
  }

  lemma WrapNotComment(trs: string)
    ensures TableLayoutWrap(trs) != BadTableComment
  {
    assert BadTableComment[0] == '<';
  }

  function TableLayoutHtml(data: seq<BlockData>): string
  {
    var k := FindKind(data, "TABLE");
    var markdown := if k >= 0 then OrElse(data[k].content, "MARKDOWN", "") else "";
    "\n<div class=\"innerpage\">\n    <div class=\"article-block article-block-16 \">\n" + TableLayoutBody(markdown) + "\n    </div>\n</div>"
  }

  // ---------------------------------------------------------------------
  // generateContentHTML
  // ---------------------------------------------------------------------

  /** `layoutGenerators[g].call(this, orderedData, layoutId)`'s html; None
    * where the generator throws, which only article-15's can. */
  function Render(g: Generator, data: seq<BlockData>): (r: Option<string>)
    ensures r.None? ==> g == CompanyInfo
  {
    match g
    case CardGrid => Some(ThreeColumnCardHtml(data))
    case IconCardGrid => Some(IconCardHtml(data))
    case NumberCardGrid => Some(NumberCardHtml(data))
    case OneColumn => Some(OneColumnListHtml(data))
    case AlternatingRows => Some(AlternatingImageTextHtml(data))
    case StickyList => Some(StickyTextListHtml(data))
    case QaList => Some(QaListHtml(data))
    case IconTitleGrid => Some(IconTitleCardsHtml(data))
    case ImageIconList => Some(ImageIconListHtml(data))
    case ImageTitleGrid => Some(ImageTitleDescHtml(data))
    case TextCardGrid => Some(TextCardHtml(data))
    case CompanyInfo => CompanyInfoHtml(data)
    case TableLayout => Some(TableLayoutHtml(data))
  }

  /** `generateContentHTML`, over the SEO blog generator and the dedicated
    * generators it is given. */
  function Dispatch(layoutId: string, data: seq<BlockData>,
                    seo: (seq<BlockData>, string) -> Output,
                    render: (Generator, seq<BlockData>) -> Option<string>): Output
  {
    if GetLayoutDefinition(layoutId).None? then Output(MissingLayoutHtml, "error")
    else match GeneratorOf(layoutId)
      case None => seo(data, layoutId)
      case Some(g) =>
        (match render(g, data)
         case None => TypeError
         case Some(html) => Output(html, layoutId))
  }

  /** `generateContentHTML(layoutId, orderedData)` */
  function GenerateContentHtml(layoutId: string, data: seq<BlockData>): Output
  {
    Dispatch(layoutId, data, SeoBlog, Render)
  }

  /** With generators that throw only for article-15 and an SEO blog
    * generator that labels its output with the layout (as Render and
    * SeoBlog do): an unregistered layout gives the error pair, a registered
    * one is labelled with its own id, only article-15 can throw, and
    * article-01 to article-03 take the SEO blog path. */
  lemma DispatchOutcome(layoutId: string, data: seq<BlockData>,
                        seo: (seq<BlockData>, string) -> Output,
                        render: (Generator, seq<BlockData>) -> Option<string>)
    requires forall d, id :: seo(d, id).Output? && seo(d, id).style == id
    requires forall g, d :: render(g, d).None? ==> g == CompanyInfo
    ensures layoutId !in Layouts ==> Dispatch(layoutId, data, seo, render) == Output(MissingLayoutHtml, "error")
    ensures layoutId in Layouts ==>
      match Dispatch(layoutId, data, seo, render)
      case TypeError => layoutId == "article-15"
      case Output(_, style) => style == layoutId
    ensures layoutId in {"article-01", "article-02", "article-03"} ==> Dispatch(layoutId, data, seo, render) == seo(data, layoutId)
  {
    if layoutId in {"article-01", "article-02", "article-03"} {
      SeoRegistered(layoutId);
      SeoLayoutsUndedicated(layoutId);
    }
  }

  /** `generateContentHTML`, running the SEO blog scan as a loop. */
  method DispatchContent(layoutId: string, data: seq<BlockData>,
                         render: (Generator, seq<BlockData>) -> Option<string>) returns (out: Output)
    ensures out == Dispatch(layoutId, data, SeoBlog, render)
  {
    if GetLayoutDefinition(layoutId).None? {
      return Output(MissingLayoutHtml, "error");
    }
    var g := GeneratorOf(layoutId);
    if g.None? {
      out := DefaultSeoBlogHtml(data, layoutId);
    } else {
      var html := render(g.value, data);
      out := if html.None? then TypeError else Output(html.value, layoutId);
    }
  }
}
