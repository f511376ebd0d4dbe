// The world article's LayoutManager (js/common/layout-manager.js), part two:
// `generateContentHTML`, which stores the effective configuration, and the
// container scan of `_generateDefaultSeoBlogHTML` with its running H2
// counter.  The scan is written over the renderers it calls, so that what
// it does with the blocks is stated apart from what each block looks like.

module CommonScan {
  import opened Wrappers
  import opened JsString
  import opened CommonLayouts
  import opened CommonRender

  datatype Output = Output(html: string, style: string)

  const MissingLayoutHtml: string := "<!-- 錯誤：找不到版型定義 -->"

  /** A block that opens a section: it ends the body of the one before. */
  predicate IsOpener(kind: string)
  {
    kind in SectionOpeners
  }

  /** The end of the body that starts at `k`: the next opener, or the end. */
  function BodyEnd(data: seq<Block>, k: nat): (e: nat)
    requires k <= |data|
    ensures k <= e <= |data|
    ensures forall j :: k <= j < e ==> !IsOpener(data[j].kind)
    ensures e == |data| || IsOpener(data[e].kind)
    decreases |data| - k
  {
    if k < |data| && !IsOpener(data[k].kind) then BodyEnd(data, k + 1) else k
  }

  /** The end of the run of ANCHOR_ITEM blocks that starts at `k`. */
  function AnchorEnd(data: seq<Block>, k: nat): (e: nat)
    requires k <= |data|
    ensures k <= e <= |data|
    ensures forall j :: k <= j < e ==> data[j].kind == "ANCHOR_ITEM"
    ensures e == |data| || data[e].kind != "ANCHOR_ITEM"
    decreases |data| - k
  {
    if k < |data| && data[k].kind == "ANCHOR_ITEM" then AnchorEnd(data, k + 1) else k
  }

  /** Where the cursor goes after the top-level block at `i`: a quote or
    * main content section takes every block up to the next opener, an
    * anchor list only the anchor items right after it, anything else only
    * itself. */
  function Next(data: seq<Block>, i: nat): (n: nat)
    requires i < |data|
    ensures i < n <= |data|
    ensures data[i].kind == "AUTHOR_BLOCK" || data[i].kind == "MAIN_CONTENT_BLOCK" ==>
      (forall j :: i < j < n ==> !IsOpener(data[j].kind)) && (n == |data| || IsOpener(data[n].kind))
    ensures data[i].kind == "ANCHOR_LIST" ==>
      (forall j :: i < j < n ==> data[j].kind == "ANCHOR_ITEM") && (n == |data| || data[n].kind != "ANCHOR_ITEM")
    ensures data[i].kind != "AUTHOR_BLOCK" && data[i].kind != "MAIN_CONTENT_BLOCK" && data[i].kind != "ANCHOR_LIST" ==>
      n == i + 1
  {
    var kind := data[i].kind;
    if kind == "AUTHOR_BLOCK" || kind == "MAIN_CONTENT_BLOCK" then BodyEnd(data, i + 1)
    else if kind == "ANCHOR_LIST" then AnchorEnd(data, i + 1)
    else i + 1
  }

  /** The number of H2 blocks in data[a..b]. */
  function H2Count(data: seq<Block>, a: nat, b: nat): nat
    requires a <= b <= |data|
    decreases b - a
  {
    if a == b then 0 else H2Count(data, a, b - 1) + (if data[b - 1].kind == "H2" then 1 else 0)
  }

  /** What the scan renders blocks with: the class prefix of the
    * configuration, `_generateIndependentBlockHtml(block, index, h2Index)`
    * and `_generateCtaHtml(content)`. */
  datatype Renderers = Renderers(
    prefix: string,
    single: (Block, nat, nat) -> string,
    cta: map<string, string> -> string)

  /** Rendered pieces and the H2 counter after them. */
  datatype Pieces = Pieces(html: seq<string>, h2: nat)

  // ---------------------------------------------------------------------
  // The scan as the source runs it: a counter carried along
  // ---------------------------------------------------------------------

  /** The inner loop of a quote or main content section over
    * data[start..stop]: every block in turn with index 0, the counter going
    * up just before each H2. */
  function Body(data: seq<Block>, single: (Block, nat, nat) -> string, start: nat, stop: nat, h2: nat): (r: Pieces)
    requires start <= stop <= |data|
    ensures |r.html| == stop - start
    ensures h2 <= r.h2
    decreases stop - start
  {
    if start == stop then Pieces([], h2)
    else
      var h := if data[start].kind == "H2" then h2 + 1 else h2;
      var rest := Body(data, single, start + 1, stop, h);
      Pieces([single(data[start], 0, h)] + rest.html, rest.h2)
  }

  /** The inner loop of an anchor list opened at `i`: the item at `k` is
    * rendered with index `k - i`. */
  function Anchors(data: seq<Block>, single: (Block, nat, nat) -> string, i: nat, start: nat, stop: nat): (r: seq<string>)
    requires i < start <= stop <= |data|
    ensures |r| == stop - start
    ensures forall m :: 0 <= m < |r| ==> r[m] == single(data[start + m], start + m - i, 0)
    decreases stop - start
  {
    if start == stop then []
    else [single(data[start], start - i, 0)] + Anchors(data, single, i, start + 1, stop)
  }

  /** Appending the next item to an anchor run. */
  lemma {:induction false} AnchorsSnoc(data: seq<Block>, single: (Block, nat, nat) -> string, i: nat, start: nat, stop: nat)
    requires i < start <= stop < |data|
    ensures Anchors(data, single, i, start, stop + 1) == Anchors(data, single, i, start, stop) + [single(data[stop], stop - i, 0)]
    decreases stop - start
  {
    if start < stop {
      AnchorsSnoc(data, single, i, start + 1, stop);
    }
  }

  const AuthorEmpty: string := "        <!-- 引言區塊內容為空 -->"
  const AnchorsEmpty: string := "        <!-- 請在錨點連結區塊輸入內容 -->"
  const MainEmpty: string := "    <!-- 主內容編輯區為空 -->"

  /** `joined || placeholder` */
  function Or(joined: string, placeholder: string): string
  {
    if joined != [] then joined else placeholder
  }

  function AuthorSectionHtml(prefix: string, body: string): string
  {
    "\n<div class=\"" + prefix + " " + prefix + "-01\">\n    <div class=\"sub-block\">\n" + body + "\n    </div>\n</div>"
  }

  /** The world article's prefix puts the anchors in a collapsible ordered
    * list; any other prefix in a plain unordered one. */
  function AnchorSectionHtml(prefix: string, body: string): string
  {
    if prefix == "world-article" then
      "\n<div class=\"" + prefix + " " + prefix + "-02\">\n    <details open>\n        <summary>目錄</summary>\n    <ol class=\"anchor-list\">\n"
      + body + "\n    </ol>\n    </details>\n\n</div>"
    else
      "\n<div class=\"" + prefix + " " + prefix + "-02\">\n    <ul class=\"anchor-list\">\n" + body + "\n    </ul>\n</div>"
  }

  function MainSectionHtml(prefix: string, body: string): string
  {
    "\n<div class=\"" + prefix + "\">\n" + body + "\n</div>"
  }

  /** One turn of the outer loop at cursor `i`: the piece it pushes and the
    * counter after it.  Every turn pushes exactly one piece; the counter
    * never goes down, and outside a quote or main content section it goes
    * up exactly at an H2. */
  function TopStep(data: seq<Block>, r: Renderers, i: nat, h2: nat): (s: Pieces)
    requires i < |data|
    ensures |s.html| == 1 && h2 <= s.h2
    ensures data[i].kind !in {"AUTHOR_BLOCK", "MAIN_CONTENT_BLOCK"} ==>
      s.h2 == if data[i].kind == "H2" then h2 + 1 else h2
  {
    var b := data[i];
    if b.kind == "AUTHOR_BLOCK" then
      var body := Body(data, r.single, i + 1, Next(data, i), h2);
      Pieces([AuthorSectionHtml(r.prefix, Or(Join(body.html, "\n"), AuthorEmpty))], body.h2)
    else if b.kind == "ANCHOR_LIST" then
      var items := Anchors(data, r.single, i, i + 1, Next(data, i));
      Pieces([AnchorSectionHtml(r.prefix, Or(Join(items, "\n"), AnchorsEmpty))], h2)
    else if b.kind == "MAIN_CONTENT_BLOCK" then
      var body := Body(data, r.single, i + 1, Next(data, i), h2);
      Pieces([MainSectionHtml(r.prefix, Or(Join(body.html, "\n"), MainEmpty))], body.h2)
    else if b.kind == "CTA" then
      Pieces([r.cta(b.content)], h2)
    else
      var h := if b.kind == "H2" then h2 + 1 else h2;
      Pieces([r.single(b, 0, h)], h)
  }

  /** The pieces pushed onto `content` from cursor `i` on: one per turn of
    * the outer loop. */
  function Scan(data: seq<Block>, r: Renderers, i: nat, h2: nat): (s: seq<string>)
    requires i <= |data|
    ensures |s| == |Tops(data, i)|
    decreases |data| - i
  {
    if i == |data| then []
    else
      var step := TopStep(data, r, i, h2);
      step.html + Scan(data, r, Next(data, i), step.h2)
  }

  // ---------------------------------------------------------------------
  // The same scan with every H2 number computed from its position
  // ---------------------------------------------------------------------

  /** Body rendering where the block at `p` gets the number of H2 blocks in
    * data[..p + 1]. */
  function RefBody(data: seq<Block>, single: (Block, nat, nat) -> string, start: nat, stop: nat): (r: seq<string>)
    requires start <= stop <= |data|
    ensures |r| == stop - start
    ensures forall m :: 0 <= m < |r| ==> r[m] == single(data[start + m], 0, H2Count(data, 0, start + m + 1))
    decreases stop - start
  {
    if start == stop then []
    else [single(data[start], 0, H2Count(data, 0, start + 1))] + RefBody(data, single, start + 1, stop)
  }

  function RefStep(data: seq<Block>, r: Renderers, i: nat): string
    requires i < |data|
  {
    var b := data[i];
    if b.kind == "AUTHOR_BLOCK" then
      AuthorSectionHtml(r.prefix, Or(Join(RefBody(data, r.single, i + 1, Next(data, i)), "\n"), AuthorEmpty))
    else if b.kind == "ANCHOR_LIST" then
      AnchorSectionHtml(r.prefix, Or(Join(Anchors(data, r.single, i, i + 1, Next(data, i)), "\n"), AnchorsEmpty))
    else if b.kind == "MAIN_CONTENT_BLOCK" then
      MainSectionHtml(r.prefix, Or(Join(RefBody(data, r.single, i + 1, Next(data, i)), "\n"), MainEmpty))
    else if b.kind == "CTA" then r.cta(b.content)
    else r.single(b, 0, H2Count(data, 0, i + 1))
  }

  /** One piece per cursor position of the outer loop: the section that
    * starts there, rendered. */
  function RefScan(data: seq<Block>, r: Renderers, i: nat): (s: seq<string>)
    requires i <= |data|
    ensures |s| == |Tops(data, i)|
    ensures forall k :: 0 <= k < |s| ==> s[k] == RefStep(data, r, Tops(data, i)[k])
    decreases |data| - i
  {
    if i == |data| then [] else [RefStep(data, r, i)] + RefScan(data, r, Next(data, i))
  }

  /** Blocks that are not H2 leave the count alone. */
  lemma {:induction false} H2CountFlat(data: seq<Block>, a: nat, b: nat)
    requires a <= b <= |data|
    requires forall j :: a <= j < b ==> data[j].kind != "H2"
    ensures H2Count(data, 0, b) == H2Count(data, 0, a)
    decreases b - a
  {
    if a < b {
      H2CountFlat(data, a, b - 1);
    }
  }

  /** Through a body the running counter stays equal to the number of H2
    * blocks seen so far. */
  lemma {:induction false} BodyCounter(data: seq<Block>, single: (Block, nat, nat) -> string, start: nat, stop: nat)
    requires start <= stop <= |data|
    ensures Body(data, single, start, stop, H2Count(data, 0, start)) == Pieces(RefBody(data, single, start, stop), H2Count(data, 0, stop))
    decreases stop - start
  {
    if start < stop {
      BodyCounter(data, single, start + 1, stop);
    }
  }

  /** One turn of the outer loop entered with the number of H2 blocks before
    * the cursor pushes the positional piece and leaves the number of H2
    * blocks before the next cursor. */
  lemma StepCounter(data: seq<Block>, r: Renderers, i: nat)
    requires i < |data|
    ensures TopStep(data, r, i, H2Count(data, 0, i)) == Pieces([RefStep(data, r, i)], H2Count(data, 0, Next(data, i)))
  {
    var n := Next(data, i);
    var kind := data[i].kind;
    if kind == "AUTHOR_BLOCK" || kind == "MAIN_CONTENT_BLOCK" {
      BodyCounter(data, r.single, i + 1, n);
      assert H2Count(data, 0, i + 1) == H2Count(data, 0, i);
    } else if kind == "ANCHOR_LIST" {
      H2CountFlat(data, i, n);
    } else if kind == "CTA" {
      assert H2Count(data, 0, i + 1) == H2Count(data, 0, i);
    }
  }

  /** `h2Counter` counts the H2 blocks before the cursor, across section
    * boundaries: the counting scan and the positional one agree. */
  lemma {:induction false} ScanCounter(data: seq<Block>, r: Renderers, i: nat)
    requires i <= |data|
    ensures Scan(data, r, i, H2Count(data, 0, i)) == RefScan(data, r, i)
    decreases |data| - i
  {
    if i < |data| {
      StepCounter(data, r, i);
      ScanCounter(data, r, Next(data, i));
    }
  }

  /** A later H2 always gets a larger number, and the first one gets 1. */
  lemma {:induction false} H2CountGrows(data: seq<Block>, p: nat, q: nat)
    requires p < q < |data|
    requires data[q].kind == "H2"
    ensures H2Count(data, 0, p + 1) < H2Count(data, 0, q + 1)
    decreases q - p
  {
    if p + 1 < q {
      H2CountGrows(data, p + 1, q);
    }
  }

  /** Two H2 blocks never share a heading id. */
  lemma H2IdsDistinct(data: seq<Block>, p: nat, q: nat)
    requires p < q < |data|
    requires data[p].kind == "H2" && data[q].kind == "H2"
    ensures SectionId(H2Count(data, 0, p + 1)) != SectionId(H2Count(data, 0, q + 1))
  {
    H2CountGrows(data, p, q);
    SectionIdsDistinct(H2Count(data, 0, p + 1), H2Count(data, 0, q + 1));
  }

  // ---------------------------------------------------------------------
  // Every block is taken exactly once
  // ---------------------------------------------------------------------

  /** The cursor positions of the outer loop from `i` on. */
  function Tops(data: seq<Block>, i: nat): (t: seq<nat>)
    requires i <= |data|
    ensures forall k :: 0 <= k < |t| ==> i <= t[k] < |data|
    decreases |data| - i
  {
    if i == |data| then [] else [i] + Tops(data, Next(data, i))
  }

  /** The outer loop pushes one piece per cursor position, and the
    * sections [t, Next(t)) of consecutive positions follow each other from
    * `i` to the end of the data. */
  lemma {:induction false} TopsTile(data: seq<Block>, r: Renderers, i: nat, h2: nat)
    requires i <= |data|
    ensures |Scan(data, r, i, h2)| == |Tops(data, i)|
    ensures var t := Tops(data, i);
      (i < |data| ==> t != [] && t[0] == i)
      && (forall k :: 0 <= k < |t| - 1 ==> t[k + 1] == Next(data, t[k]))
      && (t != [] ==> Next(data, t[|t| - 1]) == |data|)
    decreases |data| - i
  {
    if i < |data| {
      var n := Next(data, i);
      TopsTile(data, r, n, TopStep(data, r, i, h2).h2);
      var t := Tops(data, i);
      assert t[1..] == Tops(data, n);
    }
  }

  /** Every position from `i` on lies in exactly one section. */
  lemma CoveredOnce(data: seq<Block>, r: Renderers, i: nat, p: nat)
    requires i <= p < |data|
    ensures var t := Tops(data, i);
      exists k :: 0 <= k < |t| && t[k] <= p < Next(data, t[k])
    ensures var t := Tops(data, i);
      forall k, k' :: 0 <= k < |t| && 0 <= k' < |t| && t[k] <= p < Next(data, t[k]) && t[k'] <= p < Next(data, t[k']) ==> k == k'
  {
    var t := Tops(data, i);
    TopsTile(data, r, i, 0);
    TopsIncreasing(data, i);
    var k := FindSection(data, t, p, 0);
    forall k1, k2 | 0 <= k1 < |t| && 0 <= k2 < |t| && t[k1] <= p < Next(data, t[k1]) && t[k2] <= p < Next(data, t[k2])
      ensures k1 == k2
    {
      if k1 < k2 { SectionsOrdered(data, t, k1, k2); }
      if k2 < k1 { SectionsOrdered(data, t, k2, k1); }
    }
  }

  /** A section ends no later than any later section starts. */
  lemma {:induction false} SectionsOrdered(data: seq<Block>, t: seq<nat>, k1: nat, k2: nat)
    requires forall k :: 0 <= k < |t| ==> t[k] < |data|
    requires forall k :: 0 <= k < |t| - 1 ==> t[k + 1] == Next(data, t[k])
    requires k1 < k2 < |t|
    ensures Next(data, t[k1]) <= t[k2]
    decreases k2 - k1
  {
    if k1 + 1 < k2 {
      SectionsOrdered(data, t, k1 + 1, k2);
    }
  }

  lemma {:induction false} TopsIncreasing(data: seq<Block>, i: nat)
    requires i <= |data|
    ensures forall k :: 0 <= k < |Tops(data, i)| - 1 ==> Tops(data, i)[k] < Tops(data, i)[k + 1]
    decreases |data| - i
  {
    if i < |data| {
      TopsIncreasing(data, Next(data, i));
      var t := Tops(data, i);
      assert t[1..] == Tops(data, Next(data, i));
    }
  }

  /** The section holding `p`, searched from section `k` on. */
  lemma {:induction false} FindSection(data: seq<Block>, t: seq<nat>, p: nat, k: nat) returns (j: nat)
    requires forall m :: 0 <= m < |t| ==> t[m] < |data|
    requires forall m :: 0 <= m < |t| - 1 ==> t[m + 1] == Next(data, t[m])
    requires t != [] && Next(data, t[|t| - 1]) == |data|
    requires k < |t| && t[k] <= p < |data|
    ensures k <= j < |t| && t[j] <= p < Next(data, t[j])
    decreases |t| - k
  {
    if p < Next(data, t[k]) {
      j := k;
    } else {
      j := FindSection(data, t, p, k + 1);
    }
  }

  // ---------------------------------------------------------------------
  // Sections
  // ---------------------------------------------------------------------

  /** A quote section with nothing after it before the next opener shows
    * its placeholder; so does one whose only block renders as nothing. */
  lemma EmptyQuoteSection(data: seq<Block>, r: Renderers, i: nat, h2: nat)
    requires i < |data| && data[i].kind == "AUTHOR_BLOCK"
    requires Next(data, i) == i + 1
          || (Next(data, i) == i + 2 && r.single(data[i + 1], 0, if data[i + 1].kind == "H2" then h2 + 1 else h2) == [])
    ensures TopStep(data, r, i, h2).html == [AuthorSectionHtml(r.prefix, AuthorEmpty)]
  {
  }

  /** The same for a main content section. */
  lemma EmptyMainSection(data: seq<Block>, r: Renderers, i: nat, h2: nat)
    requires i < |data| && data[i].kind == "MAIN_CONTENT_BLOCK"
    requires Next(data, i) == i + 1
    ensures TopStep(data, r, i, h2).html == [MainSectionHtml(r.prefix, MainEmpty)]
  {
  }

  /** An anchor list with no item right after it shows its placeholder. */
  lemma EmptyAnchorList(data: seq<Block>, r: Renderers, i: nat, h2: nat)
    requires i < |data| && data[i].kind == "ANCHOR_LIST"
    requires i + 1 == |data| || data[i + 1].kind != "ANCHOR_ITEM"
    ensures TopStep(data, r, i, h2).html == [AnchorSectionHtml(r.prefix, AnchorsEmpty)]
  {
    assert Next(data, i) == i + 1;
  }

  // ---------------------------------------------------------------------
  // The loop
  // ---------------------------------------------------------------------

  /** The inner loop of a quote or main content section. */
  method CollectBody(data: seq<Block>, single: (Block, nat, nat) -> string, start: nat, h2: nat)
    returns (inner: seq<string>, k: nat, h2Counter: nat)
    requires start <= |data|
    ensures k == BodyEnd(data, start)
    ensures Pieces(inner, h2Counter) == Body(data, single, start, k, h2)
  {
    ghost var e := BodyEnd(data, start);
    inner := [];
    k := start;
    h2Counter := h2;
    while k < |data| && !(data[k].kind in ["AUTHOR_BLOCK", "ANCHOR_LIST", "MAIN_CONTENT_BLOCK", "CTA"])
      invariant start <= k <= e
      invariant BodyEnd(data, k) == e
      invariant Body(data, single, start, e, h2)
             == Pieces(inner + Body(data, single, k, e, h2Counter).html, Body(data, single, k, e, h2Counter).h2)
      decreases |data| - k
    {
      if data[k].kind == "H2" {
        h2Counter := h2Counter + 1;
      }
      inner := inner + [single(data[k], 0, h2Counter)];
      k := k + 1;
    }
    assert BodyEnd(data, k) == k;
  }

  /** The inner loop of an anchor list opened at `i`. */
  method CollectAnchors(data: seq<Block>, single: (Block, nat, nat) -> string, i: nat)
    returns (items: seq<string>, k: nat)
    requires i < |data|
    ensures k == AnchorEnd(data, i + 1)
    ensures items == Anchors(data, single, i, i + 1, k)
  {
    ghost var e := AnchorEnd(data, i + 1);
    items := [];
    k := i + 1;
    while k < |data| && data[k].kind == "ANCHOR_ITEM"
      invariant i + 1 <= k <= e
      invariant AnchorEnd(data, k) == e
      invariant items == Anchors(data, single, i, i + 1, k)
      decreases |data| - k
    {
      AnchorsSnoc(data, single, i, i + 1, k);
      items := items + [single(data[k], k - i, 0)];
      k := k + 1;
    }
  }

  /** One turn of the outer loop of `_generateDefaultSeoBlogHTML` at cursor
    * `i`: the piece it pushes, where the cursor goes and the counter after. */
  method SeoBlogStep(data: seq<Block>, r: Renderers, i: nat, h2Counter: nat)
    returns (piece: string, next: nat, h2After: nat)
    requires i < |data|
    ensures TopStep(data, r, i, h2Counter) == Pieces([piece], h2After)
    ensures next == Next(data, i)
  {
    var block := data[i];
    if block.kind == "AUTHOR_BLOCK" {
      var inner, k, h := CollectBody(data, r.single, i + 1, h2Counter);
      piece, next, h2After := AuthorSectionHtml(r.prefix, Or(Join(inner, "\n"), AuthorEmpty)), k, h;
    } else if block.kind == "ANCHOR_LIST" {
      var items, k := CollectAnchors(data, r.single, i);
      piece, next, h2After := AnchorSectionHtml(r.prefix, Or(Join(items, "\n"), AnchorsEmpty)), k, h2Counter;
    } else if block.kind == "MAIN_CONTENT_BLOCK" {
      var inner, k, h := CollectBody(data, r.single, i + 1, h2Counter);
      piece, next, h2After := MainSectionHtml(r.prefix, Or(Join(inner, "\n"), MainEmpty)), k, h;
    } else if block.kind == "CTA" {
      piece, next, h2After := r.cta(block.content), i + 1, h2Counter;
    } else {
      h2After := if block.kind == "H2" then h2Counter + 1 else h2Counter;
      piece, next := r.single(block, 0, h2After), i + 1;
    }
  }

  /** One turn of the outer loop, seen from the scan: pushing the turn's
    * piece keeps what is pushed and what is left to scan together. */
  lemma ScanTurn(data: seq<Block>, r: Renderers, i: nat, h2: nat, piece: string, next: nat, h2After: nat,
                 content: seq<string>)
    requires i < |data| && next == Next(data, i)
    requires TopStep(data, r, i, h2) == Pieces([piece], h2After)
    ensures content + Scan(data, r, i, h2) == (content + [piece]) + Scan(data, r, next, h2After)
  {
    assert Scan(data, r, i, h2) == [piece] + Scan(data, r, next, h2After);
  }

  /** The outer loop of `_generateDefaultSeoBlogHTML`: the pieces it
    * pushes onto `content`. */
  method SeoBlogContent(data: seq<Block>, r: Renderers) returns (content: seq<string>)
    ensures content == Scan(data, r, 0, 0)
  {
    content := [];
    var i: nat := 0;
    var h2Counter: nat := 0;
    while i < |data|
      invariant i <= |data|
      invariant content + Scan(data, r, i, h2Counter) == Scan(data, r, 0, 0)
      decreases |data| - i
    {
      var piece, next, h2After := SeoBlogStep(data, r, i, h2Counter);
      ScanTurn(data, r, i, h2Counter, piece, next, h2After, content);
      content := content + [piece];
      i, h2Counter := next, h2After;
    }
  }

  // ---------------------------------------------------------------------
  // generateContentHTML
  // ---------------------------------------------------------------------

  /** The renderers of a configuration. */
  function RenderersOf(cfg: Config): Renderers
  {
    Renderers(
      cfg.articleClassPrefix,
      (b: Block, index: nat, h2Index: nat) => IndependentHtml(cfg, b, index, h2Index),
      (c: map<string, string>) => CtaHtml(cfg.articleClassPrefix, CtaValues(cfg.ctaConfig, c)))
  }

  /** The SEO blog output under a configuration: the pieces joined by line
    * breaks, styled with the layout id. */
  function SeoBlog(cfg: Config, data: seq<Block>, layoutId: string): (out: Output)
    ensures out.style == layoutId
    ensures out.html == Join(RefScan(data, RenderersOf(cfg), 0), "\n")
  {
    ScanCounter(data, RenderersOf(cfg), 0);
    Output(Join(Scan(data, RenderersOf(cfg), 0, 0), "\n"), layoutId)
  }

  class LayoutManager {
    /** `this.currentConfig`: absent until the first registered layout is
      * generated. */
    var currentConfig: Option<Config>

    constructor ()
      ensures currentConfig.None?
    {
      currentConfig := None;
    }

    /** `generateContentHTML(layoutId, orderedData, config)`: an unknown
      * layout gives the error pair and leaves the configuration alone;
      * otherwise the merged configuration is stored first and the SEO blog
      * path renders under it (no layout has a dedicated generator). */
    method GenerateContentHtml(layoutId: string, data: seq<Block>, config: UserConfig) returns (out: Output)
      modifies this
      ensures layoutId !in Layouts ==> out == Output(MissingLayoutHtml, "error") && currentConfig == old(currentConfig)
      ensures layoutId in Layouts ==>
        currentConfig == Some(MergeConfig(config)) && out == SeoBlog(MergeConfig(config), data, layoutId)
    {
      var layoutDef := GetLayoutDefinition(layoutId);
      if layoutDef.None? {
        return Output(MissingLayoutHtml, "error");
      }
      currentConfig := Some(MergeConfig(config));
      out := DefaultSeoBlogHtml(data, layoutId);
    }

    /** `_generateDefaultSeoBlogHTML(orderedData, layoutId)` */
    method DefaultSeoBlogHtml(data: seq<Block>, layoutId: string) returns (out: Output)
      requires currentConfig.Some?
      ensures out == SeoBlog(currentConfig.value, data, layoutId)
    {
      var content := SeoBlogContent(data, RenderersOf(currentConfig.value));
      out := Output(Join(content, "\n"), layoutId);
    }
  }
}
