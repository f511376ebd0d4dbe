// The company-information form (layout article-15) of the basic article
// editor: `_parseAndPopulateArticle15UI` in js/basic-article/script.js
// reads the company name from the first `###` heading, turns every `####`
// heading and the lines under it into one item, and rebuilds the editor
// from them.

module BasicCompany {
  import opened Wrappers
  import opened JsString
  import opened BasicMarkdown
  import opened BasicLayouts
  import opened BasicPopulate
  import Selection

  // ---------------------------------------------------------------------
  // The heading pattern: a run of `#`, then `\s*\**(.+?)\**\s*$`

  /** The end of the run of `*` starting at i. */
  function StarRunEnd(s: string, i: nat): (j: nat)
    requires i <= |s|
    ensures i <= j <= |s| && (forall k :: i <= k < j ==> s[k] == '*') && (j == |s| || s[j] != '*')
    decreases |s| - i
  {
    if i < |s| && s[i] == '*' then StarRunEnd(s, i + 1) else i
  }

  /** The start of the run of white space ending at j. */
  function SpaceRunStart(s: string, j: nat): (i: nat)
    requires j <= |s|
    ensures i <= j && AllSpace(s[i..j]) && (i == 0 || !IsSpace(s[i - 1]))
  {
    if 0 < j && IsSpace(s[j - 1]) then
      var i := SpaceRunStart(s, j - 1);
      assert s[i..j] == s[i..j - 1] + [s[j - 1]];
      i
    else j
  }

  /** The start of the run of `*` ending at j. */
  function StarRunStart(s: string, j: nat): (i: nat)
    requires j <= |s|
    ensures i <= j && (forall k :: i <= k < j ==> s[k] == '*') && (i == 0 || s[i - 1] != '*')
  {
    if 0 < j && s[j - 1] == '*' then StarRunStart(s, j - 1) else j
  }

  /** Where the longest suffix made of stars followed by white space
    * begins: the part the pattern's trailing `\**\s*$` takes. */
  function TailStart(s: string): (z: nat)
    ensures z <= |s|
  {
    StarRunStart(s, SpaceRunStart(s, |s|))
  }

  /** The pattern's capture in the text after the hashes.  The greedy `\s*`
    * and `\**` take all the white space and stars at the front; the lazy
    * group then runs to where the trailing stars and white space begin,
    * but takes at least one character.  When nothing is left after the
    * leading run, the pattern backs off: the group is the last star, or
    * else the last white-space character. */
  function Capture(rest: string): (g: string)
    requires rest != []
    ensures g != []
  {
    var a := SpaceEnd(rest, 0);
    var q := StarRunEnd(rest, a);
    var z := TailStart(rest);
    if q < |rest| then rest[q..if z < q + 1 then q + 1 else z]
    else if a < q then "*"
    else rest[a - 1..a]
  }

  /** The trimmed capture for a line that starts with `hashes`, or None
    * when the line does not match (it matches exactly when something
    * follows the hashes). */
  function HeadingTitle(line: string, hashes: string): (r: Option<string>)
    ensures r.Some? <==> StartsWith(line, hashes) && |line| > |hashes|
  {
    if StartsWith(line, hashes) && |line| > |hashes| then Some(Trim(Capture(line[|hashes|..]))) else None
  }

  /** Titles carry no surrounding white space. */
  lemma HeadingTitleTrimmed(line: string, hashes: string)
    requires HeadingTitle(line, hashes).Some?
    ensures var t := HeadingTitle(line, hashes).value;
      Trim(t) == t && (t == [] || (!IsSpace(t[0]) && !IsSpace(t[|t| - 1])))
  {
    TrimIdempotent(Capture(line[|hashes|..]));
  }

  /** A bold heading gives back its text: `#### **t**` has title t. */
  lemma BoldHeadingTitle(hashes: string, t: string)
    requires t != [] && !IsSpace(t[0]) && !IsSpace(t[|t| - 1]) && t[0] != '*' && t[|t| - 1] != '*'
    ensures HeadingTitle(hashes + " **" + t + "**", hashes) == Some(t)
  {
    var line := hashes + " **" + t + "**";
    assert line[..|hashes|] == hashes;
    var rest := line[|hashes|..];
    assert rest == " **" + t + "**";
    BoldCapture(t, rest);
    TrimUnchanged(t);
  }

  lemma BoldCapture(t: string, rest: string)
    requires t != [] && !IsSpace(t[0]) && !IsSpace(t[|t| - 1]) && t[0] != '*' && t[|t| - 1] != '*'
    requires rest == " **" + t + "**"
    ensures Capture(rest) == t
  {
    assert SpaceEnd(rest, 1) == 1;
    assert SpaceEnd(rest, 0) == 1;
    assert StarRunEnd(rest, 3) == 3;
    assert StarRunEnd(rest, 1) == 3;
    assert SpaceRunStart(rest, |rest|) == |rest|;
    assert StarRunStart(rest, |rest| - 2) == |rest| - 2;
    assert StarRunStart(rest, |rest|) == |rest| - 2;
    assert rest[3..|rest| - 2] == t;
  }

  /** A heading of hashes and stars only has the title "*". */
  lemma StarsOnlyHeadingTitle()
    ensures HeadingTitle("#### **", "####") == Some("*")
  {
    var rest := "#### **"[4..];
    assert rest == " **";
    assert SpaceEnd(rest, 1) == 1;
    assert StarRunEnd(rest, 1) == 3;
    assert Capture(rest) == "*";
    TrimUnchanged("*");
  }

  // ---------------------------------------------------------------------
  // Company name and items

  const DefaultCompanyName: string := "公司名稱"

  /** The first line at or after `i` that is not all white space, or
    * `|lines|` when there is none. */
  function NextContentLine(lines: seq<string>, i: nat): (k: nat)
    requires i <= |lines|
    ensures i <= k <= |lines|
    ensures forall j :: i <= j < k ==> AllSpace(lines[j])
    ensures k < |lines| ==> !AllSpace(lines[k])
    decreases |lines| - i
  {
    if i < |lines| && AllSpace(lines[i]) then NextContentLine(lines, i + 1) else i
  }

  /** Every line is empty: only line breaks are left. */
  predicate AllEmpty(lines: seq<string>)
  {
    forall j :: 0 <= j < |lines| ==> lines[j] == []
  }

  /** The pattern matches at line `k`: it starts with `###` and some
    * character follows the hashes, on that line or a later one. */
  predicate NameMatchAt(lines: seq<string>, k: int)
  {
    0 <= k < |lines| && StartsWith(lines[k], "###")
    && (|lines[k]| > 3 || !AllEmpty(lines[k + 1..]))
  }

  /** The name a match on `line` gives, `later` being the lines after it.
    * When something other than white space follows the hashes, the match
    * stays on the line.  Otherwise the leading `\s*` runs on across the
    * line breaks and the group comes from the next line that is not all
    * white space; when there is none, the pattern backs off to a single
    * white-space character, which trims to "". */
  function NameAfter(line: string, later: seq<string>): string
    requires StartsWith(line, "###")
  {
    if !AllSpace(line[3..]) then HeadingTitle(line, "###").value
    else
      var c := NextContentLine(later, 0);
      if c < |later| then Trim(Capture(later[c])) else ""
  }

  /** The company name: `/^###\s*\**(.+?)\**\s*$/m` over the whole text,
    * read line by line: the first line where the pattern matches gives
    * it, and with no match it is the default. */
  function NameFrom(lines: seq<string>): (r: string)
    ensures (forall k :: 0 <= k < |lines| ==> !NameMatchAt(lines, k)) ==> r == DefaultCompanyName
    ensures forall k :: FirstNameMatch(lines, k) ==> r == NameAfter(lines[k], lines[k + 1..])
  {
    if lines == [] then DefaultCompanyName
    else if NameMatchAt(lines, 0) then NameAfter(lines[0], lines[1..])
    else
      NameMatchesShift(lines);
      NameFrom(lines[1..])
  }

  predicate FirstNameMatch(lines: seq<string>, k: int)
  {
    NameMatchAt(lines, k) && forall j :: 0 <= j < k ==> !NameMatchAt(lines, j)
  }

  /** Dropping the first line shifts every later match by one. */
  lemma NameMatchShift(lines: seq<string>, k: nat)
    requires 1 <= k < |lines|
    ensures NameMatchAt(lines, k) <==> NameMatchAt(lines[1..], k - 1)
    ensures lines[1..][k - 1] == lines[k] && lines[1..][k..] == lines[k + 1..]
  {
    assert lines[1..][k - 1] == lines[k];
    assert lines[1..][k..] == lines[k + 1..];
  }

  /** Dropping the first line shifts every later match by one. */
  lemma NameMatchesShift(lines: seq<string>)
    requires lines != []
    ensures forall k :: 1 <= k < |lines| ==>
      && (NameMatchAt(lines, k) <==> NameMatchAt(lines[1..], k - 1))
      && lines[1..][k - 1] == lines[k] && lines[1..][k..] == lines[k + 1..]
  {
    forall k | 1 <= k < |lines|
      ensures NameMatchAt(lines, k) <==> NameMatchAt(lines[1..], k - 1)
      ensures lines[1..][k - 1] == lines[k] && lines[1..][k..] == lines[k + 1..]
    {
      NameMatchShift(lines, k);
    }
  }

  /** A bare `###` line takes its name from the next line: `###` then
    * `ACME` names the company ACME. */
  lemma BareHeadingNamesFromNextLine()
    ensures NameFrom(["###", "ACME"]) == "ACME"
  {
    var lines := ["###", "ACME"];
    assert lines[0][3..] == [];
    assert !AllSpace(lines[1]) by { assert !IsSpace(lines[1][0]); }
    assert NextContentLine(lines, 2) == 2;
    assert NextContentLine(lines, 1) == 1;
    var rest := "ACME";
    assert SpaceEnd(rest, 0) == 0;
    assert StarRunEnd(rest, 0) == 0;
    assert SpaceRunStart(rest, 4) == 4;
    assert StarRunStart(rest, 4) == 4;
    assert rest[0..4] == rest;
    TrimUnchanged(rest);
  }

  /** So does `### ` with only a space after the hashes, even when the next
    * line is an item heading. */
  lemma SpaceHeadingNamesFromNextLine()
    ensures NameFrom(["### ", "#### 電話"]) == "#### 電話"
  {
    var lines := ["### ", "#### 電話"];
    assert lines[0][3..] == " ";
    assert !AllSpace(lines[1]) by { assert !IsSpace(lines[1][0]); }
    assert NextContentLine(lines, 2) == 2;
    assert NextContentLine(lines, 1) == 1;
    var rest := "#### 電話";
    assert SpaceEnd(rest, 0) == 0;
    assert StarRunEnd(rest, 0) == 0;
    assert SpaceRunStart(rest, 7) == 7;
    assert StarRunStart(rest, 7) == 7;
    assert rest[0..7] == rest;
    TrimUnchanged(rest);
  }

  function CompanyName(markdown: string): string
  {
    NameFrom(Split(markdown, '\n'))
  }

  /** A `####` heading also matches the three-hash pattern, so when it
    * comes before the `###` line the company name is taken from it, with
    * its fourth hash kept. */
  lemma EarlierItemHeadingNamesCompany()
    ensures NameFrom(["#### a", "### b"]) == "# a"
  {
    ThreeHashTitleOfItemHeading();
  }

  lemma ThreeHashTitleOfItemHeading()
    ensures HeadingTitle("#### a", "###") == Some("# a")
  {
    assert "#### a"[..3] == "###";
    assert "#### a"[3..] == "# a";
    CaptureOfHashA();
    TrimUnchanged("# a");
  }

  lemma CaptureOfHashA()
    ensures Capture("# a") == "# a"
  {
    var rest := "# a";
    assert SpaceEnd(rest, 0) == 0;
    assert StarRunEnd(rest, 0) == 0;
    assert SpaceRunStart(rest, 3) == 3;
    assert StarRunStart(rest, 3) == 3;
    assert rest[0..3] == rest;
  }

  /** A non-blank line as the item scan sees it: an item heading with its
    * title, or another line with its trimmed text and whether it starts
    * with `###`. */
  datatype Line = ItemHeading(title: string) | Other(text: string, h3: bool)

  function Classify(line: string): (l: Line)
    ensures l.ItemHeading? <==> StartsWith(line, "####") && |line| > 4
    ensures l.Other? ==> l.text == Trim(line) && l.h3 == StartsWith(line, "###")
  {
    match HeadingTitle(line, "####")
    case Some(t) => ItemHeading(t)
    case None => Other(Trim(line), StartsWith(line, "###"))
  }

  function Classes(lines: seq<string>): seq<Line>
  {
    if lines == [] then [] else [Classify(lines[0])] + Classes(lines[1..])
  }

  datatype CompanyItem = CompanyItem(title: string, content: seq<string>)

  /** The lines of an item: up to the next item heading, skipping lines
    * that start with `###`. */
  function BodyOf(ls: seq<Line>): seq<string>
  {
    if ls == [] || ls[0].ItemHeading? then []
    else (if ls[0].h3 then [] else [ls[0].text]) + BodyOf(ls[1..])
  }

  /** The items: one per item heading whose title is not empty, with the
    * lines under it; lines before the first heading and under a heading
    * with an empty title belong to no item. */
  function ItemsOf(ls: seq<Line>): (items: seq<CompanyItem>)
    ensures Titles(items) == HeadingTitles(ls)
  {
    if ls == [] then []
    else if ls[0].ItemHeading? then
      var first := if ls[0].title != "" then [CompanyItem(ls[0].title, BodyOf(ls[1..]))] else [];
      TitlesAppend(first, ItemsOf(ls[1..]));
      first + ItemsOf(ls[1..])
    else ItemsOf(ls[1..])
  }

  /** What the rest of the scan produces with title t and lines c pending. */
  function Pending(t: string, c: seq<string>, rest: seq<Line>): seq<CompanyItem>
  {
    (if t != "" then [CompanyItem(t, c + BodyOf(rest))] else []) + ItemsOf(rest)
  }

  /** The scan over the non-blank lines: an item heading closes the pending
    * item (when its title is not empty) and opens a new one; another line
    * joins the pending item, trimmed, unless it starts with `###`. */
  method ScanItems(lines: seq<string>) returns (items: seq<CompanyItem>)
    ensures items == ItemsOf(Classes(lines))
  {
    items := [];
    var title := "";
    var content: seq<string> := [];
    assert lines[0..] == lines;
    for i := 0 to |lines|
      invariant items + Pending(title, content, Classes(lines[i..])) == ItemsOf(Classes(lines))
    {
      var l := Classify(lines[i]);
      assert lines[i..][1..] == lines[i + 1..];
      ghost var rest := Classes(lines[i + 1..]);
      assert Classes(lines[i..]) == [l] + rest;
      match l
      case ItemHeading(t) =>
        ScanHeadingStep(items, title, content, t, rest);
        if title != "" {
          items := items + [CompanyItem(title, content)];
        }
        title := t;
        content := [];
      case Other(text, h3) =>
        ScanOtherStep(items, title, content, text, h3, rest);
        if title != "" && !h3 {
          content := content + [text];
        }
    }
    assert lines[|lines|..] == [];
    assert content + BodyOf([]) == content;
    if title != "" {
      items := items + [CompanyItem(title, content)];
    }
  }

  lemma ScanHeadingStep(items: seq<CompanyItem>, title: string, content: seq<string>, t: string, rest: seq<Line>)
    ensures items + Pending(title, content, [ItemHeading(t)] + rest)
      == (if title != "" then items + [CompanyItem(title, content)] else items) + Pending(t, [], rest)
  {
    var ls := [ItemHeading(t)] + rest;
    assert ls[1..] == rest;
    assert content + BodyOf(ls) == content;
    assert [] + BodyOf(rest) == BodyOf(rest);
    assert ItemsOf(ls) == Pending(t, [], rest);
    var first := if title != "" then [CompanyItem(title, content)] else [];
    assert Pending(title, content, ls) == first + ItemsOf(ls);
    assert items + (first + Pending(t, [], rest)) == (items + first) + Pending(t, [], rest);
  }

  lemma ScanOtherStep(items: seq<CompanyItem>, title: string, content: seq<string>, text: string, h3: bool, rest: seq<Line>)
    ensures items + Pending(title, content, [Other(text, h3)] + rest)
      == items + Pending(title, if title != "" && !h3 then content + [text] else content, rest)
  {
    var ls := [Other(text, h3)] + rest;
    assert ls[1..] == rest;
    assert ItemsOf(ls) == ItemsOf(rest);
    assert BodyOf(ls) == (if h3 then [] else [text]) + BodyOf(rest);
    if title != "" && !h3 {
      assert content + BodyOf(ls) == (content + [text]) + BodyOf(rest);
    } else if title != "" {
      assert BodyOf(ls) == BodyOf(rest);
    }
  }

  /** The titles of the item headings whose title is not empty, in order. */
  function HeadingTitles(ls: seq<Line>): seq<string>
  {
    if ls == [] then []
    else (if ls[0].ItemHeading? && ls[0].title != "" then [ls[0].title] else []) + HeadingTitles(ls[1..])
  }

  function Titles(items: seq<CompanyItem>): seq<string>
  {
    if items == [] then [] else [items[0].title] + Titles(items[1..])
  }

  lemma {:induction false} TitlesAppend(a: seq<CompanyItem>, b: seq<CompanyItem>)
    ensures Titles(a + b) == Titles(a) + Titles(b)
  {
    if a != [] {
      assert (a + b)[1..] == a[1..] + b;
      TitlesAppend(a[1..], b);
      assert Titles(a + b) == [a[0].title] + Titles(a[1..] + b);
    } else {
      assert a + b == b;
    }
  }

  /** An item's lines are the texts of the lines that follow its heading,
    * none of them an item heading or a `###` line. */
  lemma {:induction false} BodyLines(ls: seq<Line>, k: nat)
    requires k < |BodyOf(ls)|
    ensures exists j :: (0 <= j < |ls| && (forall i :: 0 <= i <= j ==> ls[i].Other?)
      && !ls[j].h3 && BodyOf(ls)[k] == ls[j].text)
  {
    var rest := BodyOf(ls[1..]);
    var k' := if ls[0].h3 then k else k - 1;
    if !ls[0].h3 && k == 0 {
      assert BodyOf(ls)[0] == ls[0].text;
    } else {
      BodyLines(ls[1..], k');
      var j :| 0 <= j < |ls[1..]| && (forall i :: 0 <= i <= j ==> ls[1..][i].Other?)
        && !ls[1..][j].h3 && rest[k'] == ls[1..][j].text;
      assert forall i :: 1 <= i <= j + 1 ==> ls[i] == ls[1..][i - 1];
      assert BodyOf(ls)[k] == rest[k'];
    }
  }

  // ---------------------------------------------------------------------
  // The rebuilt editor

  /** The company form's own link test: some line mentions `tel:` or
    * `mailto:` (`http` does not count here). */
  predicate IsLinkItem(content: seq<string>)
  {
    exists k :: 0 <= k < |content| && (Contains(content[k], "tel:") || Contains(content[k], "mailto:"))
  }

  function ItemBlock(item: CompanyItem): (b: UiBlock)
    ensures b.kind == (if IsLinkItem(item.content) then "COMPANY_LINK_ITEM" else "COMPANY_TEXT_ITEM")
  {
    var kind := if IsLinkItem(item.content) then "COMPANY_LINK_ITEM" else "COMPANY_TEXT_ITEM";
    SetField(SetField(NewBlock(kind, false, map[]), "LABEL", item.title), "TEXT", Join(item.content, "\n"))
  }

  function NameBlock(name: string): UiBlock
  {
    SetField(NewBlock("COMPANY_NAME", false, map[]), "COMPANY_NAME", name)
  }

  /** The rebuilt editor: the name block, then one block per item. */
  function CompanyBlocks(name: string, items: seq<CompanyItem>): (r: seq<UiBlock>)
    ensures |r| == |items| + 1 && r[0] == NameBlock(name)
    ensures forall k :: 0 <= k < |items| ==> r[k + 1] == ItemBlock(items[k])
  {
    Selection.ConsMapAt(NameBlock(name), items, ItemBlock);
    [NameBlock(name)] + Selection.Map(items, ItemBlock)
  }

  lemma CompanyBlocksSnoc(name: string, items: seq<CompanyItem>, x: CompanyItem)
    ensures CompanyBlocks(name, items + [x]) == CompanyBlocks(name, items) + [ItemBlock(x)]
  {
    Selection.MapSnoc(NameBlock(name), items, x, ItemBlock);
  }

  /** The name block first, then one block per item, each created after
    * the one before. */
  method BuildCompanyBlocks(name: string, items: seq<CompanyItem>) returns (bs: seq<UiBlock>)
    ensures bs == CompanyBlocks(name, items)
  {
    bs := [NameBlock(name)];
    for k := 0 to |items|
      invariant bs == [NameBlock(name)] + Selection.Map(items[..k], ItemBlock)
    {
      Selection.MapPush(NameBlock(name), items, k, ItemBlock);
      bs := bs + [ItemBlock(items[k])];
    }
    assert items[..|items|] == items;
  }

  /** The non-blank lines of the input, untrimmed. */
  function CompanyLines(markdown: string): seq<string>
  {
    NonBlank(Split(markdown, '\n'))
  }

  lemma CompanyEditorFields()
    ensures EditorFields("COMPANY_NAME", false) == ["COMPANY_NAME"]
    ensures EditorFields("COMPANY_LINK_ITEM", false) == ["LABEL", "TEXT"]
    ensures EditorFields("COMPANY_TEXT_ITEM", false) == ["LABEL", "TEXT"]
  {
  }

  /** The inputs of the company form's blocks are text inputs, so a fresh
    * block starts with every input empty. */
  lemma FreshCompanyFields(kind: string)
    requires kind in {"COMPANY_NAME", "COMPANY_LINK_ITEM", "COMPANY_TEXT_ITEM"}
    ensures kind == "COMPANY_NAME" ==> NewBlock(kind, false, map[]).values == map["COMPANY_NAME" := ""]
    ensures kind != "COMPANY_NAME" ==> NewBlock(kind, false, map[]).values == map["LABEL" := "", "TEXT" := ""]
  {
    CompanyEditorFields();
    if kind == "COMPANY_NAME" {
      NewBlockBlank(kind, ["COMPANY_NAME"]);
      assert (map f | f in ["COMPANY_NAME"] :: "") == map["COMPANY_NAME" := ""];
    } else {
      NewBlockBlank(kind, ["LABEL", "TEXT"]);
      assert (map f | f in ["LABEL", "TEXT"] :: "") == map["LABEL" := "", "TEXT" := ""];
    }
  }

  /** The name block shows the name; each item block shows the item's
    * title as its label and its lines joined by newlines as its text. */
  lemma CompanyBlocksShowItems(name: string, item: CompanyItem)
    ensures NameBlock(name).values == map["COMPANY_NAME" := name]
    ensures var b := ItemBlock(item);
      b.values == map["LABEL" := item.title, "TEXT" := Join(item.content, "\n")] && b.removed == {}
  {
    FreshCompanyFields("COMPANY_NAME");
    assert NameBlock(name).values == map["COMPANY_NAME" := name];
    var kind := if IsLinkItem(item.content) then "COMPANY_LINK_ITEM" else "COMPANY_TEXT_ITEM";
    FreshCompanyFields(kind);
    LabelAndText(NewBlock(kind, false, map[]), item.title, Join(item.content, "\n"));
  }

  lemma LabelAndText(b: UiBlock, title: string, text: string)
    requires b.values == map["LABEL" := "", "TEXT" := ""]
    ensures SetField(SetField(b, "LABEL", title), "TEXT", text).values == map["LABEL" := title, "TEXT" := text]
    ensures SetField(SetField(b, "LABEL", title), "TEXT", text).removed == b.removed
  {
    assert SetField(b, "LABEL", title).values == map["LABEL" := title, "TEXT" := ""];
  }

  /** The form's own test and the layout's grouped classifier disagree on
    * `http`: a group whose paragraph is "http" is a link item for the
    * classifier and a text item for the form. */
  lemma LinkTestsDisagreeOnHttp()
    ensures !IsLinkItem(["http"])
    ensures DynamicItemBlockType([Block("P", Text("http"))]) == "COMPANY_LINK_ITEM"
  {
    assert !OccursAt("http", "tel:", 0) by {
      assert "http"[0..4][0] != "tel:"[0];
    }
    assert !Contains("http", "tel:");
    assert !Contains("http", "mailto:");
    assert Contains("http", "http") by {
      assert OccursAt("http", "http", 0);
    }
  }
}
