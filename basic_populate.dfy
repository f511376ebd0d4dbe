// The populator of the basic article editor (js/basic-article/script.js,
// `_populateFromConfig` and `_fillUiBlock`), over an abstract list of
// editor blocks rather than the DOM: each block is its type, the value of
// each of its input fields, and the fields flagged as removed.

module BasicPopulate {
  import opened Wrappers
  import opened JsString
  import opened BasicMarkdown
  import opened BasicLayouts

  /** An editor block: its `data-type`, the value of each `data-field`
    * input, and the fields whose `data-field-removed` flag is set. */
  datatype UiBlock = UiBlock(kind: string, values: map<string, string>, removed: set<string>)

  /** `String(content)`: text as it is, an object as "[object Object]". */
  function JsText(c: Content): string
  {
    match c
    case Text(t) => t
    case Fields(_) => "[object Object]"
  }

  /** JavaScript truthiness of a block's content. */
  predicate Truthy(c: Content)
  {
    c.Fields? || c.text != ""
  }

  /** `createBlock(info)`: one input per field of the block's editor, as
    * the template leaves it, after `_fillInitialData` has written the
    * entries of `initialData` that name one of those inputs. */
  function NewBlock(kind: string, titleEditor: bool, initialData: map<string, string>): (b: UiBlock)
    ensures b.kind == kind && b.removed == {}
    ensures forall f :: f in b.values <==> f in EditorFields(kind, titleEditor)
    ensures forall f :: f in b.values && f in initialData ==> b.values[f] == initialData[f]
    ensures forall f :: f in b.values && f !in initialData ==> b.values[f] == FieldDefault(f)
  {
    UiBlock(kind,
      map f | f in EditorFields(kind, titleEditor) :: if f in initialData then initialData[f] else FieldDefault(f),
      {})
  }

  /** `_getBlockDataFromElement`: the trimmed value of every input, and the
    * inputs flagged as removed. */
  function DataOf(b: UiBlock): (d: BlockData)
    ensures d.kind == b.kind && d.content.Keys == b.values.Keys
    ensures forall f :: f in b.values ==> d.content[f] == Trim(b.values[f])
    ensures forall f :: f in d.removedFields <==> f in b.values && f in b.removed
  {
    BlockData(b.kind, map f | f in b.values :: Trim(b.values[f]), set f | f in b.values && f in b.removed)
  }

  /** An input of a fresh block that `initialData` does not name reads back
    * as the template left it: a select as its default option, any other
    * input as "". */
  lemma FreshInputReadsDefault(kind: string, titleEditor: bool, initialData: map<string, string>, f: string)
    requires f in EditorFields(kind, titleEditor) && f !in initialData
    ensures var d := DataOf(NewBlock(kind, titleEditor, initialData));
      f in d.content && d.content[f] == FieldDefault(f)
      && (d.content[f] == "" <==> SelectOptions(f) == [])
  {
    DefaultTrimmed(f);
  }

  /** A fresh block without `initialData` whose inputs are all text inputs
    * or textareas starts with every input empty. */
  lemma NewBlockBlank(kind: string, fields: seq<string>)
    requires EditorFields(kind, false) == fields
    requires forall f :: f in fields ==> SelectOptions(f) == []
    ensures NewBlock(kind, false, map[]).values == map f | f in fields :: ""
  {
  }

  /** No default begins or ends with white space, so `trim()` keeps it. */
  lemma DefaultTrimmed(f: string)
    ensures Trim(FieldDefault(f)) == FieldDefault(f)
  {
    var v := FieldDefault(f);
    assert v == [] || (!IsSpace(v[0]) && !IsSpace(v[|v| - 1]));
    TrimUnchanged(v);
  }

  /** Writing an input's value; a block without that input is unchanged. */
  function SetField(b: UiBlock, f: string, v: string): (r: UiBlock)
    ensures r.kind == b.kind && r.removed == b.removed && r.values.Keys == b.values.Keys
    ensures f in b.values ==> r.values[f] == v
    ensures forall g :: g in b.values && g != f ==> r.values[g] == b.values[g]
  {
    if f in b.values then b.(values := b.values[f := v]) else b
  }

  // ---------------------------------------------------------------------
  // Removal of the title blocks

  /** The index of the first block of the given type (-1: none). */
  function FirstOfKind(bs: seq<Block>, kind: string): (r: int)
    ensures -1 <= r < |bs|
    ensures r >= 0 ==> bs[r].kind == kind && forall j :: 0 <= j < r ==> bs[j].kind != kind
    ensures r < 0 ==> forall j :: 0 <= j < |bs| ==> bs[j].kind != kind
  {
    if bs == [] then -1
    else if bs[0].kind == kind then 0
    else
      var r := FirstOfKind(bs[1..], kind);
      if r < 0 then -1 else r + 1
  }

  /** An undefined `subTitle` finds no block: every block has a type. */
  function FindKind(bs: seq<Block>, kind: Option<string>): (r: int)
    ensures -1 <= r < |bs|
  {
    if kind.Some? then FirstOfKind(bs, kind.value) else -1
  }

  function RemoveAt(bs: seq<Block>, k: int): seq<Block>
  {
    if 0 <= k < |bs| then bs[..k] + bs[k + 1..] else bs
  }

  /** The parsed blocks without the first block of the main-title type and
    * the first block of the subtitle type; blocks are compared by
    * identity, so one block that is both leaves once. */
  function Remaining(bs: seq<Block>, mainTitle: string, subTitle: Option<string>): seq<Block>
  {
    var m := FirstOfKind(bs, mainTitle);
    var s := FindKind(bs, subTitle);
    if m == s then RemoveAt(bs, m)
    else if m < s then RemoveAt(RemoveAt(bs, s), m) else RemoveAt(RemoveAt(bs, m), s)
  }

  function Count(bs: seq<Block>, kind: string): nat
  {
    if bs == [] then 0 else (if bs[0].kind == kind then 1 else 0) + Count(bs[1..], kind)
  }

  lemma {:induction false} CountAppend(a: seq<Block>, b: seq<Block>, kind: string)
    ensures Count(a + b, kind) == Count(a, kind) + Count(b, kind)
  {
    if a == [] {
      assert a + b == b;
    } else {
      assert (a + b)[1..] == a[1..] + b;
      CountAppend(a[1..], b, kind);
    }
  }

  lemma RemoveAtCount(bs: seq<Block>, k: int, kind: string)
    requires 0 <= k < |bs|
    ensures Count(RemoveAt(bs, k), kind) == Count(bs, kind) - (if bs[k].kind == kind then 1 else 0)
    ensures multiset(RemoveAt(bs, k)) + multiset{bs[k]} == multiset(bs)
  {
    assert bs == bs[..k] + [bs[k]] + bs[k + 1..];
    CountAppend(bs[..k] + [bs[k]], bs[k + 1..], kind);
    CountAppend(bs[..k], [bs[k]], kind);
    CountAppend(bs[..k], bs[k + 1..], kind);
    assert Count([bs[k]], kind) == (if bs[k].kind == kind then 1 else 0) by {
      assert [bs[k]][1..] == [];
    }
  }

  /** Removing two distinct positions, the later one first. */
  lemma RemoveTwo(bs: seq<Block>, lo: int, hi: int, kind: string)
    requires lo < hi && 0 <= hi < |bs|
    ensures var r := RemoveAt(RemoveAt(bs, hi), lo);
      Count(r, kind) == Count(bs, kind) - (if bs[hi].kind == kind then 1 else 0)
        - (if lo >= 0 && bs[lo].kind == kind then 1 else 0)
      && multiset(r) <= multiset(bs)
  {
    var once := RemoveAt(bs, hi);
    RemoveAtCount(bs, hi, kind);
    if lo >= 0 {
      assert once[lo] == bs[lo];
      RemoveAtCount(once, lo, kind);
    }
  }

  /** Removing position `k` shifts the later blocks down by one. */
  lemma RemoveAtIndex(bs: seq<Block>, k: int, j: int)
    requires 0 <= k < |bs| && 0 <= j < |bs| && j != k
    ensures |RemoveAt(bs, k)| == |bs| - 1
    ensures RemoveAt(bs, k)[if j < k then j else j - 1] == bs[j]
  {
  }

  /** Where the block at `j` ends up once positions `m` and `s` (either of
    * them absent, -1) are removed. */
  function Shift(m: int, s: int, j: int): int
  {
    j - (if 0 <= m < j then 1 else 0) - (if 0 <= s < j then 1 else 0)
  }

  /** Only the first block of each title type leaves: the result is one
    * block shorter per title found, and every other block stays, in order,
    * moved down by the number of removed positions before it. */
  lemma RemainingKeepsOthers(bs: seq<Block>, mainTitle: string, subTitle: Option<string>)
    requires subTitle != Some(mainTitle)
    ensures var r := Remaining(bs, mainTitle, subTitle);
      var m := FirstOfKind(bs, mainTitle);
      var s := FindKind(bs, subTitle);
      && |r| == |bs| - (if m >= 0 then 1 else 0) - (if s >= 0 then 1 else 0)
      && (forall j {:trigger Shift(m, s, j)} :: 0 <= j < |bs| && j != m && j != s ==>
            0 <= Shift(m, s, j) < |r| && r[Shift(m, s, j)] == bs[j])
  {
    var m := FirstOfKind(bs, mainTitle);
    var s := FindKind(bs, subTitle);
    var r := Remaining(bs, mainTitle, subTitle);
    if s >= 0 && m >= 0 {
      assert bs[s].kind == subTitle.value;
      assert s != m;
    }
    if m < s {
      RemainingKeepsOthersAt(bs, r, m, s, m, s);
    } else if s < m {
      RemainingKeepsOthersAt(bs, r, m, s, s, m);
    }
  }

  /** `RemainingKeepsOthers` once the two positions are ordered. */
  lemma RemainingKeepsOthersAt(bs: seq<Block>, r: seq<Block>, m: int, s: int, lo: int, hi: int)
    requires -1 <= lo < hi < |bs| && ((m == lo && s == hi) || (m == hi && s == lo))
    requires r == RemoveAt(RemoveAt(bs, hi), lo)
    ensures |r| == |bs| - (if m >= 0 then 1 else 0) - (if s >= 0 then 1 else 0)
    ensures forall j {:trigger Shift(m, s, j)} :: 0 <= j < |bs| && j != m && j != s ==>
      0 <= Shift(m, s, j) < |r| && r[Shift(m, s, j)] == bs[j]
  {
    RemoveTwoLength(bs, lo, hi);
    forall j | 0 <= j < |bs| && j != m && j != s
      ensures 0 <= Shift(m, s, j) < |r| && r[Shift(m, s, j)] == bs[j]
    {
      RemoveTwoIndex(bs, lo, hi, j);
    }
  }

  lemma RemoveTwoLength(bs: seq<Block>, lo: int, hi: int)
    requires -1 <= lo < hi < |bs|
    ensures |RemoveAt(RemoveAt(bs, hi), lo)| == |bs| - 1 - (if lo >= 0 then 1 else 0)
  {
  }



  /** The first block of each title type leaves (when there is one): the
    * count of each title type drops by exactly one when the type occurs,
    * and no block is added. */
  lemma RemainingDropsFirstTitles(bs: seq<Block>, mainTitle: string, subTitle: Option<string>)
    requires subTitle != Some(mainTitle)
    ensures var r := Remaining(bs, mainTitle, subTitle);
      Count(r, mainTitle) == Count(bs, mainTitle) - (if Count(bs, mainTitle) > 0 then 1 else 0)
      && (subTitle.Some? ==>
            Count(r, subTitle.value) == Count(bs, subTitle.value) - (if Count(bs, subTitle.value) > 0 then 1 else 0))
      && multiset(r) <= multiset(bs)
  {
    var m := FirstOfKind(bs, mainTitle);
    var s := FindKind(bs, subTitle);
    CountPositive(bs, mainTitle);
    if subTitle.Some? {
      CountPositive(bs, subTitle.value);
      assert s >= 0 ==> bs[s].kind == subTitle.value;
      if s >= 0 && m >= 0 { assert s != m; }
    }
    var r := Remaining(bs, mainTitle, subTitle);
    if m < s {
      RemoveTwo(bs, m, s, mainTitle);
      RemoveTwo(bs, m, s, subTitle.value);
    } else if s < m {
      RemoveTwo(bs, s, m, mainTitle);
      if subTitle.Some? { RemoveTwo(bs, s, m, subTitle.value); }
    } else {
      assert r == bs;
    }
  }

  /** Removing `hi` and then `lo` (which may be absent, -1): the block at
    * `j` moves down by the number of removed positions before it. */
  lemma RemoveTwoIndex(bs: seq<Block>, lo: int, hi: int, j: int)
    requires -1 <= lo < hi < |bs|
    requires 0 <= j < |bs| && j != lo && j != hi
    ensures var r := RemoveAt(RemoveAt(bs, hi), lo);
      0 <= Shift(lo, hi, j) < |r| && r[Shift(lo, hi, j)] == bs[j]
  {
    var once := RemoveAt(bs, hi);
    RemoveAtIndex(bs, hi, j);
    if lo >= 0 {
      RemoveAtIndex(once, lo, if j < hi then j else j - 1);
    }
  }



  lemma {:induction false} CountPositive(bs: seq<Block>, kind: string)
    ensures Count(bs, kind) > 0 <==> FirstOfKind(bs, kind) >= 0
  {
    if bs != [] {
      CountPositive(bs[1..], kind);
    }
  }

  // ---------------------------------------------------------------------
  // Grouping

  function Flatten(gs: seq<seq<Block>>): seq<Block>
  {
    if gs == [] then [] else Flatten(gs[..|gs| - 1]) + gs[|gs| - 1]
  }

  /** The number of blocks after the first whose type is an identifier. */
  function LaterIdentifiers(bs: seq<Block>, ids: seq<string>): nat
  {
    if |bs| <= 1 then 0
    else LaterIdentifiers(bs[..|bs| - 1], ids) + (if bs[|bs| - 1].kind in ids then 1 else 0)
  }

  /** Every group is non-empty, and an identifier type occurs in a group
    * only as its first block. */
  predicate WellGrouped(gs: seq<seq<Block>>, ids: seq<string>)
  {
    forall g :: 0 <= g < |gs| ==>
      gs[g] != [] && forall k :: 1 <= k < |gs[g]| ==> gs[g][k].kind !in ids
  }

  lemma CloseGroup(groups: seq<seq<Block>>, current: seq<Block>, ids: seq<string>)
    requires WellGrouped(groups, ids) && current != []
    requires forall k :: 1 <= k < |current| ==> current[k].kind !in ids
    ensures WellGrouped(groups + [current], ids)
    ensures Flatten(groups + [current]) == Flatten(groups) + current
  {
    assert (groups + [current])[..|groups|] == groups;
  }

  lemma LaterIdentifiersStep(s: seq<Block>, i: nat, ids: seq<string>)
    requires 0 < i < |s|
    ensures LaterIdentifiers(s[..i + 1], ids) == LaterIdentifiers(s[..i], ids) + (if s[i].kind in ids then 1 else 0)
  {
    assert s[..i + 1][..i] == s[..i];
  }

  /** The grouping loop of `_populateFromConfig`: a block of an identifier
    * type closes the current group (when it holds anything) and opens the
    * next; every other block joins the current group. */
  method GroupItems(remaining: seq<Block>, ids: seq<string>) returns (groups: seq<seq<Block>>)
    ensures Flatten(groups) == remaining
    ensures WellGrouped(groups, ids)
    ensures |groups| == if remaining == [] then 0 else 1 + LaterIdentifiers(remaining, ids)
  {
    groups := [];
    var current: seq<Block> := [];
    for i := 0 to |remaining|
      invariant Flatten(groups) + current == remaining[..i]
      invariant WellGrouped(groups, ids)
      invariant (current == []) == (i == 0)
      invariant forall k :: 1 <= k < |current| ==> current[k].kind !in ids
      invariant |groups| + (if current == [] then 0 else 1) ==
        if i == 0 then 0 else 1 + LaterIdentifiers(remaining[..i], ids)
    {
      var b := remaining[i];
      assert remaining[..i + 1] == remaining[..i] + [b];
      if i > 0 { LaterIdentifiersStep(remaining, i, ids); }
      if b.kind in ids && |current| > 0 {
        CloseGroup(groups, current, ids);
        groups := groups + [current];
        current := [b];
      } else {
        current := current + [b];
      }
    }
    assert remaining[..|remaining|] == remaining;
    if |current| > 0 {
      CloseGroup(groups, current, ids);
      groups := groups + [current];
    }
  }

  // ---------------------------------------------------------------------
  // The per-group content map

  /** One step of the `contentMap` reduce: a P or UL whose entry is already
    * truthy is appended after a blank line; any other block replaces its
    * type's entry. */
  function Absorb(acc: map<string, Content>, b: Block): map<string, Content>
  {
    if (b.kind == "P" || b.kind == "UL") && b.kind in acc && Truthy(acc[b.kind]) then
      acc[b.kind := Text(JsText(acc[b.kind]) + "\n\n" + JsText(b.content))]
    else
      acc[b.kind := b.content]
  }

  function ContentMapOf(group: seq<Block>): map<string, Content>
  {
    if group == [] then map[] else Absorb(ContentMapOf(group[..|group| - 1]), group[|group| - 1])
  }

  /** `group.reduce(..., {})`. */
  method BuildContentMap(group: seq<Block>) returns (acc: map<string, Content>)
    ensures acc == ContentMapOf(group)
  {
    acc := map[];
    for i := 0 to |group|
      invariant acc == ContentMapOf(group[..i])
    {
      assert group[..i + 1][..i] == group[..i];
      var b := group[i];
      if (b.kind == "P" || b.kind == "UL") && b.kind in acc && Truthy(acc[b.kind]) {
        acc := acc[b.kind := Text(JsText(acc[b.kind]) + "\n\n" + JsText(b.content))];
      } else {
        acc := acc[b.kind := b.content];
      }
    }
    assert group[..|group|] == group;
  }

  /** The texts of a group's blocks of one type, in order. */
  function TextsOf(group: seq<Block>, kind: string): seq<string>
  {
    if group == [] then []
    else
      var b := group[|group| - 1];
      TextsOf(group[..|group| - 1], kind) + (if b.kind == kind then [JsText(b.content)] else [])
  }

  /** A type has an entry exactly when some block of the group has it. */
  lemma {:induction false} ContentMapKeys(group: seq<Block>, kind: string)
    ensures kind in ContentMapOf(group) <==> exists j :: 0 <= j < |group| && group[j].kind == kind
  {
    if group != [] {
      var init := group[..|group| - 1];
      ContentMapKeys(init, kind);
      if kind in ContentMapOf(init) {
        var j :| 0 <= j < |init| && init[j].kind == kind;
        assert group[j] == init[j];
      }
      if exists j :: 0 <= j < |group| && group[j].kind == kind {
        var j :| 0 <= j < |group| && group[j].kind == kind;
        if j < |init| { assert init[j] == group[j]; }
      }
    }
  }

  /** Repeated P (or UL) contents, all non-empty, are joined in order with
    * a blank line between them. */
  lemma {:induction false} ContentMapJoinsText(group: seq<Block>, kind: string)
    requires kind == "P" || kind == "UL"
    requires forall j :: 0 <= j < |group| && group[j].kind == kind ==> group[j].content.Text?
    requires forall j :: 0 <= j < |group| && group[j].kind == kind ==> group[j].content.text != ""
    ensures TextsOf(group, kind) != [] ==>
      kind in ContentMapOf(group) && ContentMapOf(group)[kind] == Text(Join(TextsOf(group, kind), "\n\n"))
    ensures TextsOf(group, kind) == [] ==> kind !in ContentMapOf(group)
    ensures forall t :: t in TextsOf(group, kind) ==> t != ""
  {
    if group != [] {
      var init := group[..|group| - 1];
      var b := group[|group| - 1];
      assert forall j :: 0 <= j < |init| ==> init[j] == group[j];
      ContentMapJoinsText(init, kind);
      var ts := TextsOf(init, kind);
      var acc := ContentMapOf(init);
      if b.kind == kind {
        if ts == [] {
          assert TextsOf(group, kind) == [b.content.text];
          assert Join([b.content.text], "\n\n") == b.content.text;
        } else {
          assert TextsOf(group, kind) == ts + [b.content.text];
          JoinSnoc(ts, b.content.text, "\n\n");
          assert ts[0] in ts;
          JoinNonEmpty(ts, "\n\n");
          assert Truthy(acc[kind]);
        }
      } else {
        assert TextsOf(group, kind) == ts;
      }
    }
  }

  lemma {:induction false} JoinSnoc(parts: seq<string>, last: string, sep: string)
    requires parts != []
    ensures Join(parts + [last], sep) == Join(parts, sep) + sep + last
    decreases |parts|
  {
    if |parts| == 1 {
      assert parts + [last] == [parts[0], last];
      assert Join([parts[0], last], sep) == parts[0] + sep + Join([last], sep);
    } else {
      assert (parts + [last])[1..] == parts[1..] + [last];
      JoinSnoc(parts[1..], last, sep);
    }
  }

  lemma JoinNonEmpty(parts: seq<string>, sep: string)
    requires parts != [] && parts[0] != []
    ensures Join(parts, sep) != []
  {
    if |parts| > 1 {
      assert Join(parts, sep) == parts[0] + sep + Join(parts[1..], sep);
    }
  }

  /** Any other repeated type keeps the content of its last block. */
  lemma {:induction false} ContentMapKeepsLast(group: seq<Block>, kind: string, j: nat)
    requires kind != "P" && kind != "UL"
    requires j < |group| && group[j].kind == kind
    requires forall k :: j < k < |group| ==> group[k].kind != kind
    ensures kind in ContentMapOf(group) && ContentMapOf(group)[kind] == group[j].content
  {
    var init := group[..|group| - 1];
    if j < |group| - 1 {
      assert init[j] == group[j];
      ContentMapKeepsLast(init, kind, j);
    }
  }

  // ---------------------------------------------------------------------
  // Filling a block from a content map

  /** One sub-field of an object rule: written when the target input exists
    * and the content has that sub-field with a non-empty value (a text
    * content has no sub-fields). */
  function CopyOne(b: UiBlock, c: Content, pair: (string, string)): (r: UiBlock)
    ensures r.kind == b.kind && r.removed == b.removed && r.values.Keys == b.values.Keys
  {
    var target := ToUpper(pair.1);
    if target in b.values && c.Fields? && pair.0 in c.fields && c.fields[pair.0] != "" then
      b.(values := b.values[target := c.fields[pair.0]])
    else b
  }

  function CopyFields(b: UiBlock, c: Content, pairs: seq<(string, string)>): (r: UiBlock)
    ensures r.kind == b.kind && r.removed == b.removed && r.values.Keys == b.values.Keys
  {
    if pairs == [] then b else CopyOne(CopyFields(b, c, pairs[..|pairs| - 1]), c, pairs[|pairs| - 1])
  }

  /** One mapping entry of `_fillUiBlock`: skipped when the content map has
    * no such type; a string rule writes the whole content into the
    * upper-cased field when both exist and the content is truthy. */
  function ApplyRule(b: UiBlock, cm: map<string, Content>, key: string, rule: Rule): (r: UiBlock)
    ensures r.kind == b.kind && r.removed == b.removed && r.values.Keys == b.values.Keys
  {
    if key !in cm then b
    else match rule
      case ToField(f) =>
        var target := ToUpper(f);
        if target in b.values && Truthy(cm[key]) then b.(values := b.values[target := JsText(cm[key])]) else b
      case ToFields(pairs) => CopyFields(b, cm[key], pairs)
  }

  /** `_fillUiBlock(uiBlock, contentMap, mapping)`: the mapping entries in
    * key order. */
  function FillUiBlock(b: UiBlock, cm: map<string, Content>, mapping: seq<(string, Rule)>): (r: UiBlock)
    ensures r.kind == b.kind && r.removed == b.removed && r.values.Keys == b.values.Keys
  {
    if mapping == [] then b
    else
      var last := mapping[|mapping| - 1];
      ApplyRule(FillUiBlock(b, cm, mapping[..|mapping| - 1]), cm, last.0, last.1)
  }

  lemma {:induction false} CopyFieldsKeepsShape(b: UiBlock, c: Content, pairs: seq<(string, string)>)
    ensures var r := CopyFields(b, c, pairs);
      forall f :: f in b.values ==> r.values[f] == b.values[f] || r.values[f] != ""
  {
    if pairs != [] {
      CopyFieldsKeepsShape(b, c, pairs[..|pairs| - 1]);
    }
  }

  /** The fields a list of object-rule pairs can write. */
  function PairTargets(pairs: seq<(string, string)>): set<string>
  {
    if pairs == [] then {} else PairTargets(pairs[..|pairs| - 1]) + {ToUpper(pairs[|pairs| - 1].1)}
  }

  /** The fields a mapping can write: the upper-cased target of each string
    * rule and of each pair of each object rule. */
  function Targets(mapping: seq<(string, Rule)>): set<string>
  {
    if mapping == [] then {}
    else
      var rule := mapping[|mapping| - 1].1;
      Targets(mapping[..|mapping| - 1])
        + (match rule case ToField(f) => {ToUpper(f)} case ToFields(pairs) => PairTargets(pairs))
  }

  lemma {:induction false} CopyFieldsUntargeted(b: UiBlock, c: Content, pairs: seq<(string, string)>)
    ensures var r := CopyFields(b, c, pairs);
      forall f :: f in b.values && f !in PairTargets(pairs) ==> r.values[f] == b.values[f]
  {
    if pairs != [] {
      CopyFieldsUntargeted(b, c, pairs[..|pairs| - 1]);
    }
  }

  /** `_fillUiBlock` writes only the fields its mapping names: every other
    * field keeps its value. */
  lemma {:induction false} FillKeepsUntargeted(b: UiBlock, cm: map<string, Content>, mapping: seq<(string, Rule)>)
    ensures var r := FillUiBlock(b, cm, mapping);
      forall f :: f in b.values && f !in Targets(mapping) ==> r.values[f] == b.values[f]
  {
    if mapping != [] {
      var init := mapping[..|mapping| - 1];
      var last := mapping[|mapping| - 1];
      FillKeepsUntargeted(b, cm, init);
      if last.0 in cm && last.1.ToFields? {
        CopyFieldsUntargeted(FillUiBlock(b, cm, init), cm[last.0], last.1.pairs);
      }
    }
  }

  /** `_fillUiBlock` never clears a field: each value stays as it was or
    * becomes non-empty content. */
  lemma {:induction false} FillNeverClears(b: UiBlock, cm: map<string, Content>, mapping: seq<(string, Rule)>)
    ensures var r := FillUiBlock(b, cm, mapping);
      forall f :: f in b.values ==> r.values[f] == b.values[f] || r.values[f] != ""
  {
    if mapping != [] {
      var init := mapping[..|mapping| - 1];
      var last := mapping[|mapping| - 1];
      FillNeverClears(b, cm, init);
      var mid := FillUiBlock(b, cm, init);
      if last.0 in cm && last.1.ToFields? {
        CopyFieldsKeepsShape(mid, cm[last.0], last.1.pairs);
      }
    }
  }

  /** Mapping entries whose type is absent from the content map change
    * nothing. */
  lemma {:induction false} FillSkipsAbsent(b: UiBlock, cm: map<string, Content>, mapping: seq<(string, Rule)>)
    requires forall k :: 0 <= k < |mapping| ==> mapping[k].0 !in cm
    ensures FillUiBlock(b, cm, mapping) == b
  {
    if mapping != [] {
      FillSkipsAbsent(b, cm, mapping[..|mapping| - 1]);
    }
  }

  /** A string rule applied last decides its field: with the content
    * present and truthy and the field present, the field ends as that
    * content whatever earlier rules wrote (so UL wins over P for DESC). */
  lemma FillLaterRuleWins(b: UiBlock, cm: map<string, Content>, pre: seq<(string, Rule)>, key: string, field: string)
    requires key in cm && Truthy(cm[key]) && ToUpper(field) in b.values
    ensures var r := FillUiBlock(b, cm, pre + [(key, ToField(field))]);
      r.values[ToUpper(field)] == JsText(cm[key])
  {
    var m := pre + [(key, ToField(field))];
    assert m[..|m| - 1] == pre;
  }

  /** An object rule copies each non-empty sub-field of an object content to
    * its upper-cased target field (targets pairwise distinct). */
  lemma {:induction false} CopyFieldsCopies(b: UiBlock, c: Content, pairs: seq<(string, string)>, k: nat)
    requires c.Fields? && k < |pairs|
    requires pairs[k].0 in c.fields && c.fields[pairs[k].0] != "" && ToUpper(pairs[k].1) in b.values
    requires forall j :: 0 <= j < |pairs| && j != k ==> ToUpper(pairs[j].1) != ToUpper(pairs[k].1)
    ensures CopyFields(b, c, pairs).values[ToUpper(pairs[k].1)] == c.fields[pairs[k].0]
  {
    var init := pairs[..|pairs| - 1];
    CopyFieldsKeepsShape(b, c, init);
    if k < |pairs| - 1 {
      CopyFieldsCopies(b, c, init, k);
    }
  }
}
