// The string helpers of the basic article's LayoutManager
// (js/basic-article/layout-manager.js): plain and "complex" list rendering,
// markdown tables and the section title.

module BasicHtmlParts {
  import opened Wrappers
  import opened JsString
  import opened HtmlEscape
  import opened BasicLayouts
  import Selection

  // ---------------------------------------------------------------------
  // _generateListHtml
  // ---------------------------------------------------------------------

  /** The length of the marker matched by `^([\*\-]|\d+\.)` (0: no match). */
  function MarkerLength(s: string): (n: nat)
    ensures n <= |s|
    ensures n > 0 <==> (s != [] && (s[0] == '*' || s[0] == '-'))
                       || (DigitsEnd(s, 0) > 0 && DigitsEnd(s, 0) < |s| && s[DigitsEnd(s, 0)] == '.')
  {
    if s != [] && (s[0] == '*' || s[0] == '-') then 1
    else
      var d := DigitsEnd(s, 0);
      if d > 0 && d < |s| && s[d] == '.' then d + 1 else 0
  }

  /** `s.replace(/^([\*\-]|\d+\.)\s*\/, '')`: the marker and the white space
    * after it are removed; a line without a marker is left alone. */
  function StripListMarker(s: string): (r: string)
    ensures |r| <= |s| && r == s[|s| - |r|..]
    ensures MarkerLength(s) == 0 ==> r == s
    ensures MarkerLength(s) > 0 ==> |r| < |s| && (r == [] || !IsSpace(r[0]))
  {
    var m := MarkerLength(s);
    if m == 0 then s else s[SpaceEnd(s, m)..]
  }

  /** The items of a list field: its non-blank lines, trimmed and stripped
    * of their markers. */
  function ListItems(s: string): (r: seq<string>)
    ensures |r| == |NonBlank(Split(s, '\n'))|
    ensures forall k :: 0 <= k < |r| ==> r[k] == StripListMarker(Trim(NonBlank(Split(s, '\n'))[k]))
  {
    var lines := NonBlank(Split(s, '\n'));
    seq(|lines|, k requires 0 <= k < |lines| => StripListMarker(Trim(lines[k])))
  }

  function ListItemLine(item: string): string
  {
    "            <li>" + Escape(item) + "</li>"
  }

  function ListOpen(listType: string, className: string): string
  {
    var listClass := if listType == "ol" then "default-list-ol" else "default-list-ul";
    "          <" + listType + " class=\"default-list " + listClass + " " + className + "\">\n"
  }

  function ListClose(listType: string): string
  {
    "\n          </" + listType + ">"
  }

  /** `_generateListHtml(s, className, listType)`: nothing for a blank
    * field, otherwise one escaped `<li>` per non-blank line. */
  function ListHtml(s: string, className: string, listType: string): (r: string)
    ensures r == [] <==> IsBlank(s)
    ensures !IsBlank(s) ==>
      var items := ListItems(s);
      items != [] &&
      r == ListOpen(listType, className)
           + Join(seq(|items|, k requires 0 <= k < |items| => ListItemLine(items[k])), "\n")
           + ListClose(listType)
  {
    NonBlankLinesEmpty(s);
    if IsBlank(s) then ""
    else
      var items := ListItems(s);
      if items == [] then ""
      else
        ListOpen(listType, className)
        + Join(seq(|items|, k requires 0 <= k < |items| => ListItemLine(items[k])), "\n")
        + ListClose(listType)
  }

  // ---------------------------------------------------------------------
  // _generateComplexDescriptionHTML
  // ---------------------------------------------------------------------

  const DescriptionPlaceholder: string :=
    "<p>ㄤ~ㄤ~ㄤ~小叮噹幫我實現所有~的願望ㄤ~ㄤ~ㄤ~小叮噹幫我實現所有~的願望ㄤ~ㄤ~ㄤ~小叮噹幫我實現所有~的願望...</p>"

  /** `/^[\*\-]\s*\/.test(line)`: the trimmed line starts with a bullet. */
  predicate IsBullet(line: string)
  {
    line != [] && (line[0] == '*' || line[0] == '-')
  }

  /** `line.replace(/^[\*\-]\s*\/, '')` for a bullet line. */
  function StripBullet(line: string): (r: string)
    requires IsBullet(line)
    ensures |r| < |line| && r == line[|line| - |r|..]
    ensures r == [] || !IsSpace(r[0])
  {
    line[SpaceEnd(line, 1)..]
  }

  function ItemLine(line: string): string
    requires IsBullet(line)
  {
    "<li>" + Escape(StripBullet(line)) + "</li>\n"
  }

  function ParaLine(line: string): string
  {
    "<p>" + Escape(line) + "</p>\n"
  }

  /** The html the loop appends for `lines` (the non-blank lines, trimmed)
    * when `inList` says whether a `<ul>` is open. */
  function DescFrom(lines: seq<string>, inList: bool): string
    decreases |lines|
  {
    if lines == [] then (if inList then "</ul>\n" else "")
    else
      var line := lines[0];
      if IsBullet(line) then
        var more := ItemLine(line) + DescFrom(lines[1..], true);
        if inList then more else "<ul>\n" + more
      else
        var more := ParaLine(line) + DescFrom(lines[1..], false);
        if inList then "</ul>\n" + more else more
  }

  /** `_generateComplexDescriptionHTML(desc)`; a missing value is "". */
  function ComplexDescription(desc: string): (r: string)
    ensures desc == [] ==> r == DescriptionPlaceholder
    ensures desc != [] ==> r == RenderPieces(Group(Trimmed(NonBlank(Split(desc, '\n')))))
  {
    if desc == [] then DescriptionPlaceholder
    else
      var lines := Trimmed(NonBlank(Split(desc, '\n')));
      DescGrouped(lines);
      DescFrom(lines, false)
  }

  /** The loop of `_generateComplexDescriptionHTML`, with its `inList` flag
    * and its `html` accumulator. */
  method ComplexDescriptionHtml(desc: string) returns (html: string)
    ensures html == ComplexDescription(desc)
  {
    if desc == [] {
      return DescriptionPlaceholder;
    }
    var raw := NonBlank(Split(desc, '\n'));
    ghost var lines := Trimmed(raw);
    ghost var goal := DescFrom(lines, false);
    html := "";
    var inList := false;
    var i := 0;
    while i < |raw|
      invariant 0 <= i <= |raw|
      invariant html + DescFrom(lines[i..], inList) == goal
    {
      var line := Trim(raw[i]);
      assert line == lines[i];
      html, inList := AppendDescLine(html, inList, line, lines[i..]);
      assert lines[i..][1..] == lines[i + 1..];
      i := i + 1;
    }
    if inList {
      html := html + "</ul>\n";
    }
  }

  /** One pass of the loop body: `line` (the head of `ls`) is written as an
    * item, opening the `<ul>` if needed, or as a paragraph, closing it. */
  method AppendDescLine(html: string, inList: bool, line: string, ghost ls: seq<string>)
    returns (html': string, inList': bool)
    requires ls != [] && ls[0] == line
    ensures html' + DescFrom(ls[1..], inList') == html + DescFrom(ls, inList)
  {
    html' := html;
    inList' := inList;
    if IsBullet(line) {
      if !inList' {
        html' := html' + "<ul>\n";
        inList' := true;
      }
      html' := html' + ItemLine(line);
      BulletStep(html, inList, ls);
    } else {
      if inList' {
        html' := html' + "</ul>\n";
        inList' := false;
      }
      html' := html' + ParaLine(line);
      ParaStep(html, inList, ls);
    }
  }

  /** One bullet line: the `<ul>` is opened if needed, then the item. */
  lemma BulletStep(before: string, was: bool, lines: seq<string>)
    requires lines != [] && IsBullet(lines[0])
    ensures (if was then before else before + "<ul>\n") + ItemLine(lines[0]) + DescFrom(lines[1..], true)
            == before + DescFrom(lines, was)
  {
    var tail := DescFrom(lines[1..], true);
    var li := ItemLine(lines[0]);
    if was {
      Assoc(before, li, tail);
    } else {
      Assoc(before + "<ul>\n", li, tail);
      Assoc(before, "<ul>\n", li + tail);
    }
  }

  /** One other line: an open `<ul>` is closed, then the paragraph. */
  lemma ParaStep(before: string, was: bool, lines: seq<string>)
    requires lines != [] && !IsBullet(lines[0])
    ensures (if was then before + "</ul>\n" else before) + ParaLine(lines[0]) + DescFrom(lines[1..], false)
            == before + DescFrom(lines, was)
  {
    var tail := DescFrom(lines[1..], false);
    var p := ParaLine(lines[0]);
    if was {
      Assoc(before + "</ul>\n", p, tail);
      Assoc(before, "</ul>\n", p + tail);
    } else {
      Assoc(before, p, tail);
    }
  }

  lemma Assoc(a: string, b: string, c: string)
    ensures a + (b + c) == (a + b) + c
  {
  }

  /** A description read as paragraphs and maximal runs of bullet items. */
  datatype Piece = Bullets(items: seq<string>) | Para(text: string)

  /** A run of bullets is non-empty and made of bullet lines; a paragraph
    * is not a bullet line. */
  predicate PieceOk(p: Piece)
  {
    match p
    case Bullets(items) => items != [] && forall j :: 0 <= j < |items| ==> IsBullet(items[j])
    case Para(t) => !IsBullet(t)
  }

  /** Every piece is well formed and no two runs of bullets touch. */
  predicate WellGrouped(ps: seq<Piece>)
  {
    ps == [] ||
    (PieceOk(ps[0]) && (|ps| > 1 ==> !(ps[0].Bullets? && ps[1].Bullets?)) && WellGrouped(ps[1..]))
  }

  lemma ConsWellGrouped(p: Piece, rest: seq<Piece>)
    requires PieceOk(p) && WellGrouped(rest)
    requires !(p.Bullets? && rest != [] && rest[0].Bullets?)
    ensures WellGrouped([p] + rest)
  {
    assert ([p] + rest)[1..] == rest;
  }

  lemma TailWellGrouped(rest: seq<Piece>)
    requires rest != [] && WellGrouped(rest)
    ensures WellGrouped(rest[1..])
    ensures |rest| > 1 ==> !rest[1].Bullets? || !rest[0].Bullets?
  {
  }

  /** The trimmed lines a piece stands for. */
  function Flatten(ps: seq<Piece>): seq<string>
  {
    if ps == [] then []
    else (match ps[0] case Bullets(items) => items case Para(t) => [t]) + Flatten(ps[1..])
  }

  function Trimmed(lines: seq<string>): (r: seq<string>)
    ensures |r| == |lines|
  {
    seq(|lines|, k requires 0 <= k < |lines| => Trim(lines[k]))
  }

  /** The description's non-blank lines grouped into pieces. */
  function Group(lines: seq<string>): (r: seq<Piece>)
    ensures WellGrouped(r)
    decreases |lines|
  {
    if lines == [] then []
    else
      var line := lines[0];
      var rest := Group(lines[1..]);
      if !IsBullet(line) then
        ConsWellGrouped(Para(line), rest);
        [Para(line)] + rest
      else if rest != [] && rest[0].Bullets? then
        var p := Bullets([line] + rest[0].items);
        TailWellGrouped(rest);
        JoinedRunOk(line, rest[0]);
        ConsWellGrouped(p, rest[1..]);
        [p] + rest[1..]
      else
        ConsWellGrouped(Bullets([line]), rest);
        [Bullets([line])] + rest
  }

  lemma JoinedRunOk(line: string, p: Piece)
    requires IsBullet(line) && p.Bullets? && PieceOk(p)
    ensures PieceOk(Bullets([line] + p.items))
  {
    var items := [line] + p.items;
    assert forall j :: 1 <= j < |items| ==> items[j] == p.items[j - 1];
  }

  /** Grouping keeps every line, in order. */
  lemma {:induction false} GroupFlattens(lines: seq<string>)
    ensures Flatten(Group(lines)) == lines
    decreases |lines|
  {
    if lines != [] {
      var line := lines[0];
      var rest := Group(lines[1..]);
      GroupFlattens(lines[1..]);
      assert lines == [line] + lines[1..];
      if !IsBullet(line) {
        assert Group(lines) == [Para(line)] + rest;
      } else if rest != [] && rest[0].Bullets? {
        assert Group(lines) == [Bullets([line] + rest[0].items)] + rest[1..];
        assert Flatten(rest) == rest[0].items + Flatten(rest[1..]);
      } else {
        assert Group(lines) == [Bullets([line])] + rest;
      }
    }
  }

  /** A run of bullets in the grouping starts exactly where a bullet line
    * does. */
  lemma GroupHead(lines: seq<string>)
    requires lines != []
    ensures Group(lines) != [] && (Group(lines)[0].Bullets? <==> IsBullet(lines[0]))
  {
  }

  function ItemLines(items: seq<string>): string
    requires forall j :: 0 <= j < |items| ==> IsBullet(items[j])
  {
    if items == [] then "" else ItemLine(items[0]) + ItemLines(items[1..])
  }

  function RenderPiece(p: Piece): string
    requires p.Bullets? ==> forall j :: 0 <= j < |p.items| ==> IsBullet(p.items[j])
  {
    match p
    case Bullets(items) => "<ul>\n" + (ItemLines(items) + "</ul>\n")
    case Para(t) => ParaLine(t)
  }

  function RenderPieces(ps: seq<Piece>): string
    requires WellGrouped(ps)
  {
    if ps == [] then "" else RenderPiece(ps[0]) + RenderPieces(ps[1..])
  }

  /** What the loop appends with a `<ul>` already open. */
  function ContinueList(ps: seq<Piece>): string
    requires WellGrouped(ps)
  {
    if ps != [] && ps[0].Bullets? then ItemLines(ps[0].items) + ("</ul>\n" + RenderPieces(ps[1..]))
    else "</ul>\n" + RenderPieces(ps)
  }

  /** The loop writes each maximal run of bullet lines as exactly one
    * `<ul>…</ul>` and every other line as one `<p>`. */
  lemma {:induction false} DescGrouped(lines: seq<string>)
    ensures DescFrom(lines, false) == RenderPieces(Group(lines))
    ensures DescFrom(lines, true) == ContinueList(Group(lines))
    decreases |lines|
  {
    if lines != [] {
      var line := lines[0];
      var g := Group(lines[1..]);
      DescGrouped(lines[1..]);
      if !IsBullet(line) {
        DescGroupedPara(lines, line, g);
      } else if g != [] && g[0].Bullets? {
        DescGroupedJoin(lines, line, g);
      } else {
        DescGroupedOpen(lines, line, g);
      }
    }
  }

  lemma DescGroupedPara(lines: seq<string>, line: string, g: seq<Piece>)
    requires lines != [] && line == lines[0] && !IsBullet(line) && g == Group(lines[1..])
    requires DescFrom(lines[1..], false) == RenderPieces(g)
    ensures DescFrom(lines, false) == RenderPieces(Group(lines))
    ensures DescFrom(lines, true) == ContinueList(Group(lines))
  {
    var r := Group(lines);
    assert r == [Para(line)] + g;
    assert r[1..] == g;
    assert RenderPieces(r) == ParaLine(line) + RenderPieces(g);
  }

  lemma DescGroupedJoin(lines: seq<string>, line: string, g: seq<Piece>)
    requires lines != [] && line == lines[0] && IsBullet(line) && g == Group(lines[1..])
    requires g != [] && g[0].Bullets?
    requires DescFrom(lines[1..], true) == ContinueList(g)
    ensures DescFrom(lines, false) == RenderPieces(Group(lines))
    ensures DescFrom(lines, true) == ContinueList(Group(lines))
  {
    var items := [line] + g[0].items;
    var r := Group(lines);
    assert r == [Bullets(items)] + g[1..];
    assert r[1..] == g[1..];
    var li := ItemLine(line);
    var rest := ItemLines(g[0].items);
    var close := "</ul>\n";
    var after := RenderPieces(g[1..]);
    assert ItemLines(items) == li + rest by {
      assert items[1..] == g[0].items;
    }
    assert DescFrom(lines, true) == li + (rest + (close + after));
    Assoc(li, rest, close + after);
    assert DescFrom(lines, false) == "<ul>\n" + (li + (rest + (close + after)));
    Assoc(li + rest, close, after);
    Assoc("<ul>\n", (li + rest) + close, after);
    assert RenderPieces(r) == ("<ul>\n" + ((li + rest) + close)) + after;
  }

  lemma DescGroupedOpen(lines: seq<string>, line: string, g: seq<Piece>)
    requires lines != [] && line == lines[0] && IsBullet(line) && g == Group(lines[1..])
    requires !(g != [] && g[0].Bullets?)
    requires DescFrom(lines[1..], true) == ContinueList(g)
    ensures DescFrom(lines, false) == RenderPieces(Group(lines))
    ensures DescFrom(lines, true) == ContinueList(Group(lines))
  {
    var r := Group(lines);
    assert r == [Bullets([line])] + g;
    assert r[1..] == g;
    var li := ItemLine(line);
    var close := "</ul>\n";
    var after := RenderPieces(g);
    assert ItemLines([line]) == li by {
      assert [line][1..] == [];
      assert ItemLines([line]) == li + [];
    }
    assert DescFrom(lines, true) == li + (close + after);
    assert DescFrom(lines, false) == "<ul>\n" + (li + (close + after));
    Assoc(li, close, after);
    Assoc("<ul>\n", li + close, after);
    assert RenderPieces(r) == ("<ul>\n" + (li + close)) + after;
  }

  /** A description whose lines are all blank (but which is not empty)
    * renders as nothing: only the empty string gets the placeholder. */
  lemma BlankDescriptionEmpty(desc: string)
    requires desc != [] && IsBlank(desc)
    ensures ComplexDescription(desc) == ""
  {
    NonBlankLinesEmpty(desc);
  }

  // ---------------------------------------------------------------------
  // _generateTableHtml
  // ---------------------------------------------------------------------

  /** `line.trim() && line.trim().startsWith('|')`: the first character
    * that is not white space is a `|` (PipeLineTrimmed). */
  predicate PipeLine(line: string)
    decreases |line|
  {
    line != [] && (if IsSpace(line[0]) then PipeLine(line[1..]) else line[0] == '|')
  }

  lemma {:induction false} PipeLineTrimmed(line: string)
    ensures PipeLine(line) <==> StartsWith(Trim(line), "|")
    decreases |line|
  {
    if line != [] {
      if IsSpace(line[0]) {
        PipeLineTrimmed(line[1..]);
        SpaceHeadTrim(line);
      } else {
        FirstNonSpaceTrim(line);
      }
    }
  }

  /** A line that starts with a non-space character starts its trim. */
  lemma FirstNonSpaceTrim(line: string)
    requires line != [] && !IsSpace(line[0])
    ensures Trim(line) != [] && Trim(line)[0] == line[0]
    ensures StartsWith(Trim(line), "|") <==> line[0] == '|'
  {
    assert TrimStart(line) == line;
    var r := Trim(line);
    assert TrimmedAt(line, r, 0);
    assert r[0] == line[0];
    assert r[..1] == [line[0]];
  }

  /** Leading white space does not change the trimmed text. */
  lemma SpaceHeadTrim(s: string)
    requires s != [] && IsSpace(s[0])
    ensures Trim(s) == Trim(s[1..])
  {
    assert TrimStart(s) == TrimStart(s[1..]);
  }

  /** `filter(line => line.trim() && line.trim().startsWith('|'))`; the kept
    * lines are not trimmed. */
  function PipeLines(lines: seq<string>): (r: seq<string>)
    ensures |r| <= |lines|
    ensures forall k :: 0 <= k < |r| ==> PipeLine(r[k])
    ensures Selection.Selects(r, lines, PipeLine)
  {
    if lines == [] then []
    else
      var rest := PipeLines(lines[1..]);
      Selection.SelectsCons(lines[0], lines[1..], PipeLine, rest);
      assert lines == [lines[0]] + lines[1..];
      if PipeLine(lines[0]) then
        var r := [lines[0]] + rest;
        assert forall k :: 1 <= k < |r| ==> r[k] == rest[k - 1];
        r
      else rest
  }

  /** Only table lines are dropped. */
  lemma {:induction false} PipeLinesAll(lines: seq<string>)
    requires forall k :: 0 <= k < |lines| ==> PipeLine(lines[k])
    ensures PipeLines(lines) == lines
    decreases |lines|
  {
    if lines != [] {
      PipeLinesAll(lines[1..]);
      assert PipeLine(lines[0]);
      assert lines == [lines[0]] + lines[1..];
    }
  }

  /** `/^\|.*[-:].*\|$/.test(line)` */
  predicate IsDelimiterRow(line: string)
  {
    |line| >= 2 && line[0] == '|' && line[|line| - 1] == '|'
    && exists k :: 1 <= k < |line| - 1 && (line[k] == '-' || line[k] == ':')
  }

  /** `row.split('|').slice(1, -1)`, each cell trimmed and stripped of `**`. */
  function RowCells(row: string): (r: seq<string>)
    ensures forall c :: 0 <= c < |r| ==> !HasBold(r[c])
  {
    var parts := Split(row, '|');
    var inner := if |parts| >= 2 then parts[1..|parts| - 1] else [];
    assert forall c :: 0 <= c < |inner| ==> !HasBold(RemoveBold(Trim(inner[c]))) by {
      forall c | 0 <= c < |inner| { RemoveBoldClean(Trim(inner[c])); }
    }
    seq(|inner|, c requires 0 <= c < |inner| => RemoveBold(Trim(inner[c])))
  }

  datatype Table = EmptyTable | Incomplete | Rows(rows: seq<seq<string>>)

  /** The table a markdown field describes: nothing for a blank field, an
    * incomplete one without a delimiter row as its second line, otherwise
    * its rows with the delimiter row left out. */
  function ParseTable(markdown: string): (t: Table)
    ensures t.EmptyTable? <==> IsBlank(markdown)
    ensures t.Rows? ==>
      var lines := PipeLines(Split(markdown, '\n'));
      |lines| >= 2 && IsDelimiterRow(lines[1]) && |t.rows| == |lines| - 1
      && t.rows[0] == RowCells(lines[0])
      && forall k :: 1 <= k < |t.rows| ==> t.rows[k] == RowCells(lines[k + 1])
    ensures t.Incomplete? ==>
      var lines := PipeLines(Split(markdown, '\n'));
      |lines| < 2 || !IsDelimiterRow(lines[1])
  {
    if IsBlank(markdown) then EmptyTable
    else
      var lines := PipeLines(Split(markdown, '\n'));
      if |lines| < 2 || !IsDelimiterRow(lines[1]) then Incomplete
      else
        var kept := [lines[0]] + lines[2..];
        DropSecond(lines);
        Rows(seq(|kept|, k requires 0 <= k < |kept| => RowCells(kept[k])))
  }

  lemma DropSecond(lines: seq<string>)
    requires |lines| >= 2
    ensures var kept := [lines[0]] + lines[2..];
      |kept| == |lines| - 1 && kept[0] == lines[0] && forall k :: 1 <= k < |kept| ==> kept[k] == lines[k + 1]
  {
  }

  function CellsHtml(cells: seq<string>): string
  {
    if cells == [] then "" else "<td>" + Escape(cells[0]) + "</td>" + CellsHtml(cells[1..])
  }

  /** The `<tr>` lines, `indent` being the template's indentation. */
  function RowsHtml(rows: seq<seq<string>>, indent: string): (r: seq<string>)
    ensures |r| == |rows|
  {
    seq(|rows|, k requires 0 <= k < |rows| =>
      indent + "<tr>\n" + indent + "    " + CellsHtml(rows[k]) + "\n" + indent + "</tr>")
  }

  const TableEmptyComment: string := "<!-- 表格內容為空 -->"
  const TableIncompleteComment: string := "<!-- 表格格式不完整 -->"

  const TableHead: string :=
    "    <div class=\"rwd-table\">\n        <div class=\"rwd-table-compare\">\n            <div class=\"table\">\n                <table>\n                    <tbody>\n"
  const TableTail: string :=
    "\n                    </tbody>\n                </table>\n            </div>\n        </div>\n    </div>"

  function TableWrap(trs: string): string
  {
    TableHead + trs + TableTail
  }

  /** A rendered table is neither comment: its template alone is longer. */
  lemma TableWrapNotComment(trs: string)
    ensures TableWrap(trs) != TableEmptyComment && TableWrap(trs) != TableIncompleteComment
  {
    assert |TableTail| > |TableEmptyComment| && |TableTail| > |TableIncompleteComment|;
    assert |TableWrap(trs)| == |TableHead| + |trs| + |TableTail|;
  }

  /** `_generateTableHtml(markdown)`; a missing value is "". A blank field
    * gives the empty-table comment, a field whose second table line is not
    * a delimiter row the incomplete-table comment, and only those. */
  function TableHtml(markdown: string): (r: string)
    ensures r == TableEmptyComment <==> IsBlank(markdown)
    ensures r == TableIncompleteComment <==>
      !IsBlank(markdown) && (var lines := PipeLines(Split(markdown, '\n')); |lines| < 2 || !IsDelimiterRow(lines[1]))
  {
    assert TableEmptyComment[7] != TableIncompleteComment[7];
    match ParseTable(markdown)
    case EmptyTable => TableEmptyComment
    case Incomplete => TableIncompleteComment
    case Rows(rows) =>
      var trs := Join(RowsHtml(rows, "                        "), "\n");
      TableWrapNotComment(trs);
      TableWrap(trs)
  }

  lemma {:induction false} SpaceNoPipeLine(line: string)
    requires AllSpace(line)
    ensures !PipeLine(line)
    decreases |line|
  {
    if line != [] {
      assert IsSpace(line[0]);
      assert AllSpace(line[1..]) by {
        forall i | 0 <= i < |line| - 1 ensures IsSpace(line[1..][i]) { assert line[1..][i] == line[i + 1]; }
      }
      SpaceNoPipeLine(line[1..]);
    }
  }

  lemma {:induction false} NoPipeLines(lines: seq<string>)
    requires forall k :: 0 <= k < |lines| ==> !PipeLine(lines[k])
    ensures PipeLines(lines) == []
    decreases |lines|
  {
    if lines != [] {
      assert forall k :: 0 <= k < |lines| - 1 ==> lines[1..][k] == lines[k + 1];
      NoPipeLines(lines[1..]);
    }
  }

  /** A blank field has no table line at all. */
  lemma BlankNoPipeLines(markdown: string)
    requires IsBlank(markdown)
    ensures PipeLines(Split(markdown, '\n')) == []
  {
    var parts := Split(markdown, '\n');
    BlankAllSpace(markdown);
    SplitAllSpace(markdown, '\n');
    assert AllSpace(markdown);
    assert forall k :: 0 <= k < |Split(markdown, '\n')| ==> AllSpace(Split(markdown, '\n')[k]);
    forall k | 0 <= k < |parts| ensures !PipeLine(parts[k]) {
      SpaceNoPipeLine(parts[k]);
    }
    NoPipeLines(parts);
  }

  /** Only lines that start with `|` once trimmed take part, so a line
    * indented before its `|` counts as a row but never as the delimiter. */
  lemma IndentedDelimiterRejected(line: string)
    requires line != [] && IsSpace(line[0])
    ensures !IsDelimiterRow(line)
  {
  }

  // ---------------------------------------------------------------------
  // _generateTitleHtml / _extractAndGenerateMainTitleHTML
  // ---------------------------------------------------------------------

  /** `block?.content.KEY?.trim() || null`, "" standing for null. */
  function TitleText(b: Option<BlockData>, key: string): string
  {
    match b
    case None => ""
    case Some(d) => Trim(OrElse(d.content, key, ""))
  }

  function TagOf(b: Option<BlockData>, key: string, dflt: string): string
  {
    match b
    case None => dflt
    case Some(d) => OrElse(d.content, key, dflt)
  }

  /** `_generateTitleHtml(main, sub)`: the section title with the main title
    * from `main`'s H2 and the subtitle from `sub`'s H3, both escaped. */
  function TitleHtml(main: Option<BlockData>, sub: Option<BlockData>): (r: string)
    ensures r == [] <==> TitleText(main, "H2") == [] && TitleText(sub, "H3") == []
  {
    var m := TitleText(main, "H2");
    var s := TitleText(sub, "H3");
    if m == [] && s == [] then ""
    else
      var h2 := TagOf(main, "H2_TAG", "h2");
      var h3 := TagOf(sub, "H3_TAG", "h3");
      "        <div class=\"section-title section-title-bottom text-center\">\n"
      + (if m != [] then "            <" + h2 + " class=\"main-title \">" + Escape(m) + "</" + h2 + ">" else "")
      + "\n"
      + (if s != [] then "            <" + h3 + " class=\"sub-title \">" + Escape(s) + "</" + h3 + ">" else "")
      + "\n        </div>"
  }

  /** The index of the first block of the given type, or -1. */
  function FindKind(data: seq<BlockData>, kind: string): (r: int)
    ensures -1 <= r < |data|
    ensures r >= 0 ==> data[r].kind == kind && forall j :: 0 <= j < r ==> data[j].kind != kind
    ensures r < 0 ==> forall j :: 0 <= j < |data| ==> data[j].kind != kind
  {
    if data == [] then -1
    else if data[0].kind == kind then 0
    else
      var r := FindKind(data[1..], kind);
      if r < 0 then -1 else r + 1
  }

  /** `_extractAndGenerateMainTitleHTML(data)`: the titles of the first
    * MAIN_TEXT block, each left out when flagged as removed. */
  function ExtractTitleHtml(data: seq<BlockData>): string
  {
    var k := FindKind(data, "MAIN_TEXT");
    if k < 0 then ""
    else
      var b := data[k];
      TitleHtml(if "H2" in b.removedFields then None else Some(b),
                if "H3" in b.removedFields then None else Some(b))
  }

  /** The section title is absent exactly when there is no MAIN_TEXT block,
    * or when each of its titles is removed or blank. */
  lemma ExtractTitleAbsent(data: seq<BlockData>)
    ensures ExtractTitleHtml(data) == [] <==>
      var k := FindKind(data, "MAIN_TEXT");
      k < 0 || (("H2" in data[k].removedFields || IsBlank(OrElse(data[k].content, "H2", "")))
                && ("H3" in data[k].removedFields || IsBlank(OrElse(data[k].content, "H3", ""))))
  {
  }
}
