// The editor container of the basic article editor as a list of blocks,
// and the steps of `_populateFromConfig` (js/basic-article/script.js) that
// change it: the title fields, the atomic blocks, and the item slots that
// are reused, replaced, appended and trimmed.

module BasicEditor {
  import opened Wrappers
  import opened JsString
  import opened BasicMarkdown
  import opened BasicLayouts
  import opened BasicLayoutFacts
  import opened BasicPopulate
  import opened BasicCompany
  import opened BasicSlots
  import HtmlEscape
  import BasicGenerators

  /** The block `createBlock` makes for an entry of `initialBlocks`. */
  function Created(ib: InitialBlock): (b: UiBlock)
    ensures b.kind == ib.kind && b.removed == {}
    ensures forall f :: f in b.values <==> f in EditorFields(ib.kind, ib.titleEditor)
    ensures forall f :: f in b.values ==>
      b.values[f] == if f in ib.initialData then ib.initialData[f] else FieldDefault(f)
  {
    NewBlock(ib.kind, ib.titleEditor, ib.initialData)
  }

  /** A fresh block whose subtitle select nothing wrote still holds h3, so
    * a subtitle typed into it renders as `<h3>`, not as the `h4` that
    * `SUBTITLE_TAG || 'h4'` falls back to. */
  lemma FreshSubtitleRendersH3(kind: string, initialData: map<string, string>, s: string, attrs: string)
    requires "SUBTITLE_TAG" in EditorFields(kind, false) && "SUBTITLE_TAG" !in initialData
    requires s != "" && "SUBTITLE" in EditorFields(kind, false)
    ensures var c := DataOf(NewBlock(kind, false, initialData)).content["SUBTITLE" := s];
      BasicGenerators.OptionalSubtitle(c, attrs) == BasicGenerators.Heading("h3", attrs, HtmlEscape.Escape(s))
  {
    FreshInputReadsDefault(kind, false, initialData, "SUBTITLE_TAG");
    var c := DataOf(NewBlock(kind, false, initialData)).content["SUBTITLE" := s];
    assert c["SUBTITLE_TAG"] == "h3" && c["SUBTITLE"] == s;
    assert OrElse(c, "SUBTITLE", "") == s;
    assert OrElse(c, "SUBTITLE_TAG", "h4") == "h3";
  }

  // ---------------------------------------------------------------------
  // What the grouped path makes of the item slots

  function ItemTypeFor(c: ParsingConfig, group: seq<Block>): (kind: string)
    requires c.Grouped?
    ensures ItemTypeOk(c) ==> kind != "" && !IsHeaderKind(kind)
  {
    match c.itemType
    case Fixed(k) => k
    case ByContent => DynamicItemBlockType(group)
  }

  /** The block a group fills: its slot when that slot exists and has the
    * group's type, otherwise a fresh block of that type holding its
    * template's defaults. */
  function SlotFor(slots: seq<UiBlock>, g: nat, kind: string): (b: UiBlock)
    ensures b.kind == kind
    ensures g < |slots| && slots[g].kind == kind ==> b == slots[g]
    ensures !(g < |slots| && slots[g].kind == kind) ==>
      && b.removed == {}
      && (forall f :: f in b.values <==> f in EditorFields(kind, false))
      && forall f :: f in b.values ==> b.values[f] == FieldDefault(f)
  {
    if g < |slots| && slots[g].kind == kind then slots[g] else NewBlock(kind, false, map[])
  }

  /** The item blocks after the grouped path: one per group, in group
    * order, each its slot or a fresh block filled from the group's
    * content map. */
  function ItemsAfter(slots: seq<UiBlock>, groups: seq<seq<Block>>, c: ParsingConfig): (r: seq<UiBlock>)
    requires c.Grouped?
    ensures |r| == |groups|
    ensures forall g :: 0 <= g < |groups| ==> r[g].kind == ItemTypeFor(c, groups[g])
  {
    seq(|groups|, g requires 0 <= g < |groups| =>
      FillUiBlock(SlotFor(slots, g, ItemTypeFor(c, groups[g])), ContentMapOf(groups[g]), c.itemMapping))
  }

  /** A slot of the right type is reused as it is: it keeps its removed
    * flags and its inputs, and a field that no mapping entry fills keeps
    * its value. */
  lemma ItemsAfterReusesSlots(slots: seq<UiBlock>, groups: seq<seq<Block>>, c: ParsingConfig, g: nat)
    requires c.Grouped? && g < |groups| && g < |slots| && slots[g].kind == ItemTypeFor(c, groups[g])
    ensures var r := ItemsAfter(slots, groups, c)[g];
      r.removed == slots[g].removed && r.values.Keys == slots[g].values.Keys
      && forall f :: f in slots[g].values ==> r.values[f] == slots[g].values[f] || r.values[f] != ""
  {
    FillNeverClears(slots[g], ContentMapOf(groups[g]), c.itemMapping);
  }

  /** A group without a slot of its type gets a fresh block: no field is
    * flagged, it has the inputs of its type's template, a field the item
    * mapping does not name keeps the template's value (the selected option
    * of a select, "" otherwise), and a field it names keeps that value or
    * receives content. */
  lemma ItemsAfterFreshBlocks(slots: seq<UiBlock>, groups: seq<seq<Block>>, c: ParsingConfig, g: nat)
    requires c.Grouped? && g < |groups| && !(g < |slots| && slots[g].kind == ItemTypeFor(c, groups[g]))
    ensures var r := ItemsAfter(slots, groups, c)[g];
      r.removed == {}
      && (forall f :: f in r.values <==> f in EditorFields(ItemTypeFor(c, groups[g]), false))
      && (forall f :: f in r.values && f !in Targets(c.itemMapping) ==> r.values[f] == FieldDefault(f))
      && (forall f :: f in r.values ==> r.values[f] == FieldDefault(f) || r.values[f] != "")
  {
    var b := NewBlock(ItemTypeFor(c, groups[g]), false, map[]);
    FillKeepsUntargeted(b, ContentMapOf(groups[g]), c.itemMapping);
    FillNeverClears(b, ContentMapOf(groups[g]), c.itemMapping);
  }

  /** The run of slots at the front of the container, from position k on,
    * that step 3 moves to the end.  A slot of the wrong type is replaced by
    * a fresh block created after the slot's previous sibling; a slot that
    * is the first block of the container has none, and a block created
    * after no block is appended at the end (`_insertElement`).  Slot g is
    * first exactly when every block before it was such a slot, so the moved
    * slots are the leading run of wrong-typed slots. */
  function FrontMoves(bs: seq<UiBlock>, groups: seq<seq<Block>>, c: ParsingConfig, k: nat): (m: nat)
    requires c.Grouped? && k <= |bs|
    ensures k <= m <= |bs| && (k <= |groups| ==> m <= |groups|)
    ensures forall i :: k <= i < m ==> IsItem(bs[i])
    decreases |bs| - k
  {
    if k < |bs| && k < |groups| && IsItem(bs[k]) && bs[k].kind != ItemTypeFor(c, groups[k])
    then FrontMoves(bs, groups, c, k + 1)
    else k
  }

  /** The new blocks are item blocks. */
  lemma WantAreItems(slots: seq<UiBlock>, groups: seq<seq<Block>>, c: ParsingConfig)
    requires c.Grouped? && ItemTypeOk(c)
    ensures AllItems(ItemsAfter(slots, groups, c))
  {
    forall k | 0 <= k < |groups|
      ensures IsItem(ItemsAfter(slots, groups, c)[k])
    {
      var kind := ItemTypeFor(c, groups[k]);
    }
  }

  /** The container after steps 3 and 4 of the grouped path: the slots
    * hold the groups' blocks (`ItemsAfter`), arranged as `Arranged` says,
    * with the leading run of wrong-typed slots moved to the end. */
  function GroupedBlocks(bs: seq<UiBlock>, groups: seq<seq<Block>>, c: ParsingConfig): seq<UiBlock>
    requires c.Grouped?
  {
    Arranged(bs, ItemsAfter(Items(bs), groups, c), FrontMoves(bs, groups, c, 0))
  }

  /** The container while step 3 runs: groups 0 to g - 1 placed, k of them
    * by moving their slot from the front to the end. */
  function Placed(bs: seq<UiBlock>, groups: seq<seq<Block>>, c: ParsingConfig, g: nat, k: nat): seq<UiBlock>
    requires c.Grouped? && k <= g <= |groups| && k <= |bs|
  {
    Staged(bs, ItemsAfter(Items(bs), groups, c), g, k)
  }

  /** k counts the slots moved so far: the moved slots are the first k
    * blocks, and once a slot has stayed, no later one moves. */
  predicate MovedSoFar(bs: seq<UiBlock>, groups: seq<seq<Block>>, c: ParsingConfig, g: nat, k: nat)
    requires c.Grouped?
  {
    k <= g <= |groups| && k <= |bs|
    && FrontMoves(bs, groups, c, 0) == FrontMoves(bs, groups, c, k)
    && (k < g ==> FrontMoves(bs, groups, c, k) == k)
  }

  /** The grouped path keeps every header block, in order. */
  lemma GroupedBlocksHeaders(bs: seq<UiBlock>, groups: seq<seq<Block>>, c: ParsingConfig)
    requires c.Grouped? && ItemTypeOk(c)
    ensures Headers(GroupedBlocks(bs, groups, c)) == Headers(bs)
  {
    WantAreItems(Items(bs), groups, c);
    ArrangedHeaders(bs, ItemsAfter(Items(bs), groups, c), FrontMoves(bs, groups, c, 0));
  }

  /** The new item blocks are the groups' blocks: those placed in the
    * slots' places, in group order, then those of the moved slots, then
    * those appended beyond the slots. */
  lemma GroupedBlocksItems(bs: seq<UiBlock>, groups: seq<seq<Block>>, c: ParsingConfig)
    requires c.Grouped? && ItemTypeOk(c)
    ensures var want := ItemsAfter(Items(bs), groups, c);
      var m := FrontMoves(bs, groups, c, 0);
      var k := Min(|groups|, |Items(bs)|);
      m <= k && Items(GroupedBlocks(bs, groups, c)) == want[m..k] + want[..m] + want[k..]
  {
    WantAreItems(Items(bs), groups, c);
    ArrangedItems(bs, ItemsAfter(Items(bs), groups, c), FrontMoves(bs, groups, c, 0));
  }

  /** Without a moved slot, the item blocks are exactly the groups'
    * blocks in group order. */
  lemma GroupedBlocksInOrder(bs: seq<UiBlock>, groups: seq<seq<Block>>, c: ParsingConfig)
    requires c.Grouped? && ItemTypeOk(c) && FrontMoves(bs, groups, c, 0) == 0
    ensures Items(GroupedBlocks(bs, groups, c)) == ItemsAfter(Items(bs), groups, c)
  {
    GroupedBlocksItems(bs, groups, c);
    RotateNone(ItemsAfter(Items(bs), groups, c), Min(|groups|, |Items(bs)|));
  }

  lemma RotateNone<T>(xs: seq<T>, k: nat)
    requires k <= |xs|
    ensures xs[0..k] + xs[..0] + xs[k..] == xs
  {
  }

  /** A container that starts with a header block, or with a slot of the
    * layout's fixed item type, has no moved slot: so it is for every
    * registered grouped layout but the company form. */
  lemma NoFrontMoveAfterHeader(bs: seq<UiBlock>, groups: seq<seq<Block>>, c: ParsingConfig)
    requires c.Grouped? && bs != []
    requires IsHeaderKind(bs[0].kind) || (c.itemType.Fixed? && bs[0].kind == c.itemType.kind)
    ensures FrontMoves(bs, groups, c, 0) == 0
  {
  }

  /** A wrong-typed slot that is the first block of the container ends up
    * last: with one group and a header block after the slot, the header
    * comes first and the group's fresh block after it. */
  lemma FrontSlotLandsLast(bs: seq<UiBlock>, groups: seq<seq<Block>>, c: ParsingConfig)
    requires c.Grouped? && ItemTypeOk(c) && |groups| == 1 && |bs| == 2
    requires IsItem(bs[0]) && bs[0].kind != ItemTypeFor(c, groups[0]) && !IsItem(bs[1])
    ensures GroupedBlocks(bs, groups, c)
      == [bs[1], FillUiBlock(NewBlock(ItemTypeFor(c, groups[0]), false, map[]), ContentMapOf(groups[0]), c.itemMapping)]
  {
    var slots := Items(bs);
    ItemsCons(bs[0], bs[1..]);
    ItemsCons(bs[1], []);
    assert bs[1..] == [bs[1]] + [];
    assert slots == [bs[0]];
    assert FrontMoves(bs, groups, c, 1) == 1;
    var want := ItemsAfter(slots, groups, c);
    assert Cut(bs, want) == 2 by { SlotRankAll(bs); }
    assert Headers(bs[2..]) == [];
    assert Filled(bs, want, 1)[1] == bs[1];
  }

  lemma DescUpper()
    ensures ToUpper("DESC") == "DESC"
  {
  }

  /** In every registered grouped layout that maps lists (all but the
    * company form and the table layout), UL is the last mapping entry and
    * targets DESC, so a group holding both paragraphs and a list shows only
    * the list in DESC. */
  lemma RegisteredDescFromList(id: string, b: UiBlock, cm: map<string, Content>)
    requires id in Layouts && id !in {"article-01", "article-02", "article-03", "article-15", "article-16"}
    requires "UL" in cm && Truthy(cm["UL"]) && "DESC" in b.values
    ensures var c := Layouts[id].parsingConfig;
      c.Some? && c.value.Grouped? && FillUiBlock(b, cm, c.value.itemMapping).values["DESC"] == JsText(cm["UL"])
  {
    GroupedEndsWithList(id);
    var m := Layouts[id].parsingConfig.value.itemMapping;
    assert m == m[..|m| - 1] + [("UL", ToField("DESC"))];
    DescUpper();
    FillLaterRuleWins(b, cm, m[..|m| - 1], "UL", "DESC");
  }

  // ---------------------------------------------------------------------
  // Title fields

  /** `querySelector('[data-field="f"]')`: the first block with that input. */
  function FirstWithField(bs: seq<UiBlock>, f: string): (r: int)
    ensures -1 <= r < |bs|
    ensures r >= 0 ==> f in bs[r].values && forall j :: 0 <= j < r ==> f !in bs[j].values
    ensures r < 0 ==> forall j :: 0 <= j < |bs| ==> f !in bs[j].values
  {
    if bs == [] then -1
    else if f in bs[0].values then 0
    else
      var r := FirstWithField(bs[1..], f);
      if r < 0 then -1 else r + 1
  }

  /** `querySelector('[data-type="kind"]')`. */
  function FirstOfType(bs: seq<UiBlock>, kind: string): (r: int)
    ensures -1 <= r < |bs|
    ensures r >= 0 ==> bs[r].kind == kind && forall j :: 0 <= j < r ==> bs[j].kind != kind
    ensures r < 0 ==> forall j :: 0 <= j < |bs| ==> bs[j].kind != kind
  {
    if bs == [] then -1
    else if bs[0].kind == kind then 0
    else
      var r := FirstOfType(bs[1..], kind);
      if r < 0 then -1 else r + 1
  }

  function Flag(b: UiBlock, f: string): (r: UiBlock)
    ensures r.kind == b.kind && r.values == b.values
    ensures r.removed == if f in b.values then b.removed + {f} else b.removed
  {
    if f in b.values then b.(removed := b.removed + {f}) else b
  }

  function Unflag(b: UiBlock, f: string): (r: UiBlock)
    ensures r.kind == b.kind && r.values == b.values && r.removed == b.removed - {f}
  {
    b.(removed := b.removed - {f})
  }

  /** Clearing and flagging a field of a MAIN_TEXT block. */
  function Retire(b: UiBlock, f: string): (r: UiBlock)
    ensures r.kind == b.kind && r.values.Keys == b.values.Keys
    ensures f in b.values ==> r.values[f] == "" && r.removed == b.removed + {f}
    ensures f !in b.values ==> r == b
    ensures forall g :: g in b.values && g != f ==> r.values[g] == b.values[g]
  {
    Flag(SetField(b, f, ""), f)
  }

  /** The main-title target of the grouped path: the configured block and
    * field when there is one, otherwise the first H2 input. */
  function MainTitleTarget(bs: seq<UiBlock>, c: ParsingConfig): (r: (int, string))
    requires c.Grouped?
    ensures -1 <= r.0 < |bs| && (r.0 >= 0 ==> r.1 in bs[r.0].values)
  {
    match c.mainTitleTarget
    case Some(t) =>
      var k := FirstOfType(bs, t.0);
      if k >= 0 && t.1 in bs[k].values then (k, t.1) else (-1, t.1)
    case None => (FirstWithField(bs, "H2"), "H2")
  }

  /** Step 1 of the grouped path: the first main-title block's text goes to
    * the target field; when the target is in a MAIN_TEXT block, its H3 and
    * P are cleared and flagged removed.  The first subtitle block's text
    * then goes to the first H3 input, whose removed flag stays as it is. */
  function GroupedTitles(bs: seq<UiBlock>, parsed: seq<Block>, c: ParsingConfig): (r: seq<UiBlock>)
    requires c.Grouped?
    ensures |r| == |bs| && forall k :: 0 <= k < |bs| ==> r[k].kind == bs[k].kind
  {
    var bs1 := GroupedMainTitle(bs, parsed, c);
    var h := FindKind(parsed, c.subTitle);
    var s := FirstWithField(bs1, "H3");
    if h < 0 || s < 0 then bs1 else bs1[s := SetField(bs1[s], "H3", JsText(parsed[h].content))]
  }

  function GroupedMainTitle(bs: seq<UiBlock>, parsed: seq<Block>, c: ParsingConfig): (r: seq<UiBlock>)
    requires c.Grouped?
    ensures |r| == |bs| && forall k :: 0 <= k < |bs| ==> r[k].kind == bs[k].kind
  {
    var d := FirstOfKind(parsed, c.mainTitle);
    var t := MainTitleTarget(bs, c);
    if d < 0 || t.0 < 0 then bs
    else
      var b := SetField(bs[t.0], t.1, JsText(parsed[d].content));
      bs[t.0 := if b.kind == "MAIN_TEXT" then Retire(Retire(b, "H3"), "P") else b]
  }

  /** With both titles present and a MAIN_TEXT block holding the first H2
    * and H3 inputs, its H2 holds the title and its H3 the subtitle, but the
    * H3 stays flagged removed, so the subtitle is not rendered. */
  lemma GroupedSubtitleStaysRemoved(bs: seq<UiBlock>, parsed: seq<Block>, c: ParsingConfig, k: nat)
    requires c.Grouped? && c.mainTitleTarget.None? && c.subTitle.Some?
    requires k < |bs| && bs[k].kind == "MAIN_TEXT"
    requires FirstWithField(bs, "H2") == k && FirstWithField(bs, "H3") == k
    requires FirstOfKind(parsed, c.mainTitle) >= 0 && FindKind(parsed, c.subTitle) >= 0
    ensures var r := GroupedTitles(bs, parsed, c)[k];
      r.values["H2"] == JsText(parsed[FirstOfKind(parsed, c.mainTitle)].content)
      && r.values["H3"] == JsText(parsed[FindKind(parsed, c.subTitle)].content)
      && "H3" in r.removed
  {
    var d := FirstOfKind(parsed, c.mainTitle);
    var b := SetField(bs[k], "H2", JsText(parsed[d].content));
    var bs1 := GroupedMainTitle(bs, parsed, c);
    assert bs1 == bs[k := Retire(Retire(b, "H3"), "P")];
    assert FirstWithField(bs1, "H3") == k by {
      assert forall j :: 0 <= j < k ==> bs1[j] == bs[j];
    }
  }

  // ---------------------------------------------------------------------
  // The atomic path

  /** The input an atomic block's content goes to. */
  function ContentField(uiType: string): string
  {
    if uiType == "IMAGE" then "URL"
    else if uiType == "UL" || uiType == "OL" then "LIST_ITEMS"
    else if uiType == "TABLE" then "MARKDOWN"
    else "TEXT"
  }

  /** `content.URL` and `content.ALT` as strings; a missing property reads
    * as "undefined". */
  function Prop(c: Content, k: string): string
  {
    if c.Fields? && k in c.fields then c.fields[k] else "undefined"
  }

  /** The block the atomic path creates for one markdown block: a fresh
    * block of the mapped type whose content input (if its editor has one)
    * holds the content as a string; IMAGE fills URL and ALT. */
  function AtomicBlock(b: Block, uiType: string): (r: UiBlock)
    ensures r.kind == uiType && r.removed == {}
  {
    var nb := NewBlock(uiType, false, map[]);
    if ContentField(uiType) !in nb.values then nb
    else if uiType == "IMAGE" then SetField(SetField(nb, "URL", Prop(b.content, "URL")), "ALT", Prop(b.content, "ALT"))
    else SetField(nb, ContentField(uiType), JsText(b.content))
  }

  /** The blocks created for the remaining markdown blocks: one per block
    * whose type the mapping knows, in order. */
  function AtomicBlocks(bs: seq<Block>, mapping: map<string, string>): (r: seq<UiBlock>)
    ensures |r| <= |bs|
  {
    if bs == [] then []
    else
      var init := AtomicBlocks(bs[..|bs| - 1], mapping);
      var b := bs[|bs| - 1];
      if b.kind in mapping then init + [AtomicBlock(b, mapping[b.kind])] else init
  }

  /** The mapped blocks, in order. */
  function Mapped(bs: seq<Block>, mapping: map<string, string>): seq<Block>
  {
    if bs == [] then []
    else Mapped(bs[..|bs| - 1], mapping) + (if bs[|bs| - 1].kind in mapping then [bs[|bs| - 1]] else [])
  }

  /** One created block per mapped markdown block, in the same order, of
    * the mapped type. */
  lemma {:induction false} AtomicBlocksFollowMapping(bs: seq<Block>, mapping: map<string, string>)
    ensures var r := AtomicBlocks(bs, mapping); var m := Mapped(bs, mapping);
      |r| == |m| && forall k :: 0 <= k < |m| ==> m[k].kind in mapping && r[k].kind == mapping[m[k].kind]
  {
    if bs != [] {
      AtomicBlocksFollowMapping(bs[..|bs| - 1], mapping);
    }
  }

  /** An OL block's object content becomes the text "[object Object]". */
  lemma AtomicOrderedListIsObjectText(b: Block)
    requires b.kind == "OL" && b.content.Fields?
    ensures AtomicBlock(b, "OL").values["LIST_ITEMS"] == "[object Object]"
  {
  }

  /** H4 has no editor template: its block has no inputs, so the heading's
    * text is dropped. */
  lemma AtomicHeading4HasNoInput(b: Block)
    ensures AtomicBlock(b, "H4").values == map[]
  {
    var nb := NewBlock("H4", false, map[]);
    assert "H4" !in TemplateFields;
    assert nb.values.Keys == {};
  }

  /** Step 1 of the atomic path: the H2 input gets the main title (and loses
    * its removed flag) or, inside MAIN_TEXT, is cleared and flagged; that
    * block's P is cleared and flagged.  Step 1.5: the H3 input gets the
    * subtitle and H3 and H3_TAG lose their flags, or H3 is cleared and
    * both are flagged. */
  function AtomicTitles(bs: seq<UiBlock>, parsed: seq<Block>, c: ParsingConfig): (r: seq<UiBlock>)
    requires c.Atomic?
    ensures |r| == |bs| && forall k :: 0 <= k < |bs| ==> r[k].kind == bs[k].kind
  {
    AtomicSubtitle(AtomicMainTitle(bs, parsed, c), parsed, c)
  }

  function AtomicMainTitle(bs: seq<UiBlock>, parsed: seq<Block>, c: ParsingConfig): (r: seq<UiBlock>)
    requires c.Atomic?
    ensures |r| == |bs| && forall k :: 0 <= k < |bs| ==> r[k].kind == bs[k].kind
  {
    var d := FirstOfKind(parsed, c.mainTitle);
    var t := FirstWithField(bs, "H2");
    if t < 0 then bs
    else
      var inMain := bs[t].kind == "MAIN_TEXT";
      var b :=
        if d >= 0 then Unflag(SetField(bs[t], "H2", JsText(parsed[d].content)), "H2")
        else if inMain then Retire(bs[t], "H2")
        else bs[t];
      bs[t := if inMain then Retire(b, "P") else b]
  }

  function AtomicSubtitle(bs: seq<UiBlock>, parsed: seq<Block>, c: ParsingConfig): (r: seq<UiBlock>)
    requires c.Atomic?
    ensures |r| == |bs| && forall k :: 0 <= k < |bs| ==> r[k].kind == bs[k].kind
  {
    var h := FindKind(parsed, c.subTitle);
    var s := FirstWithField(bs, "H3");
    if s < 0 then bs
    else
      var bs2 := bs[s := if h >= 0 then Unflag(SetField(bs[s], "H3", JsText(parsed[h].content)), "H3")
                        else Retire(bs[s], "H3")];
      var g := FirstWithField(bs2, "H3_TAG");
      if g < 0 then bs2
      else bs2[g := if h >= 0 then Unflag(bs2[g], "H3_TAG") else Flag(bs2[g], "H3_TAG")]
  }

  /** Where the atomic blocks go: after the first MAIN_TEXT block, else
    * after the last block. */
  function AtomicInsertAfter(bs: seq<UiBlock>): (p: int)
    ensures -1 <= p < |bs|
  {
    var m := FirstOfType(bs, "MAIN_TEXT");
    if m >= 0 then m else |bs| - 1
  }

  /** The insertion point is the first MAIN_TEXT block when there is one,
    * otherwise the last block (-1 for an empty editor). */
  lemma AtomicInsertPoint(bs: seq<UiBlock>)
    ensures var p := AtomicInsertAfter(bs);
      (exists j :: 0 <= j < |bs| && bs[j].kind == "MAIN_TEXT") ==>
        0 <= p && bs[p].kind == "MAIN_TEXT" && forall j :: 0 <= j < p ==> bs[j].kind != "MAIN_TEXT"
    ensures (forall j :: 0 <= j < |bs| ==> bs[j].kind != "MAIN_TEXT") ==> AtomicInsertAfter(bs) == |bs| - 1
  {
  }

  /** The blocks after the atomic path: the titled blocks with the created
    * blocks inserted after the first MAIN_TEXT block (or at the end). */
  function AtomicPopulated(bs: seq<UiBlock>, parsed: seq<Block>, c: ParsingConfig): (r: seq<UiBlock>)
    requires c.Atomic?
    ensures var titled := AtomicTitles(bs, parsed, c);
      var created := AtomicBlocks(Remaining(parsed, c.mainTitle, c.subTitle), c.blockMapping);
      |r| == |bs| + |created| && multiset(r) == multiset(titled) + multiset(created)
  {
    var titled := AtomicTitles(bs, parsed, c);
    var p := AtomicInsertAfter(titled) + 1;
    var created := AtomicBlocks(Remaining(parsed, c.mainTitle, c.subTitle), c.blockMapping);
    assert titled == titled[..p] + titled[p..];
    titled[..p] + created + titled[p..]
  }

  // ---------------------------------------------------------------------
  // The editor

  class Editor {
    /** The dynamic content container, in document order. */
    var blocks: seq<UiBlock>

    /** `handleLayoutChange`: one fresh block per initial block, in order. */
    constructor (layout: LayoutDef)
      ensures |blocks| == |layout.initialBlocks|
      ensures forall k :: 0 <= k < |blocks| ==> blocks[k] == Created(layout.initialBlocks[k])
    {
      var bs: seq<UiBlock> := [];
      for k := 0 to |layout.initialBlocks|
        invariant |bs| == k
        invariant forall j :: 0 <= j < k ==> bs[j] == Created(layout.initialBlocks[j])
      {
        bs := bs + [Created(layout.initialBlocks[k])];
      }
      blocks := bs;
    }

    /** Steps 3 and 4 of the grouped path.  The slots are located through
      * the container as step 3 finds it (`initialUiItemBlocks`); the
      * slots left over once every group is placed are removed. */
    method FillItems(groups: seq<seq<Block>>, c: ParsingConfig)
      requires c.Grouped? && ItemTypeOk(c)
      modifies this
      ensures blocks == GroupedBlocks(old(blocks), groups, c)
    {
      var start := blocks;
      var moved := ReuseOrAppend(start, groups, c);
      ghost var want := ItemsAfter(Items(start), groups, c);
      StagedEnd(start, want, moved);
      if |Items(start)| > |groups| {
        ghost var cut := Cut(start, want);
        TrimItems(start, |groups|, moved, Filled(start, want, |groups|)[moved..cut], want[..moved]);
      }
    }

    /** `_populateUIWithParsedData`: nothing happens for an unknown layout;
      * every registered layout has a parsing config, so the default SEO-blog
      * path is never taken, and the config picks the atomic or the grouped
      * path. */
    method Populate(parsed: seq<Block>, layoutId: string) returns (groups: seq<seq<Block>>)
      modifies this
      ensures layoutId !in Layouts ==> blocks == old(blocks) && groups == []
      ensures layoutId in Layouts ==>
        var d := Layouts[layoutId];
        d.parsingConfig.Some? &&
        var c := d.parsingConfig.value;
        (c.Atomic? ==> groups == [] && blocks == AtomicPopulated(old(blocks), parsed, c))
        && (c.Grouped? ==>
              Flatten(groups) == Remaining(parsed, c.mainTitle, c.subTitle)
              && WellGrouped(groups, c.identifiers)
              && blocks == GroupedBlocks(GroupedTitles(old(blocks), parsed, c), groups, c))
    {
      groups := [];
      var d := GetLayoutDefinition(layoutId);
      if d.None? {
        return;
      }
      RegistryConfigs();
      assert EntryShape(layoutId, d.value);
      var c := d.value.parsingConfig.value;
      if c.Atomic? {
        PopulateAtomic(parsed, c);
      } else {
        groups := PopulateGrouped(parsed, c);
      }
    }

    /** `_parseAndPopulateArticle15UI`: the editor is cleared and rebuilt
      * from the company name and the items, in order. */
    method PopulateCompanyForm(markdown: string)
      modifies this
      ensures blocks == CompanyBlocks(CompanyName(markdown), ItemsOf(Classes(CompanyLines(markdown))))
    {
      var items := ScanItems(CompanyLines(markdown));
      blocks := BuildCompanyBlocks(CompanyName(markdown), items);
    }

    /** `_populateFromConfig` for a grouped layout: the titles, then the
      * remaining blocks split into groups, one item slot per group. */
    method PopulateGrouped(parsed: seq<Block>, c: ParsingConfig) returns (groups: seq<seq<Block>>)
      requires c.Grouped? && ItemTypeOk(c)
      modifies this
      ensures Flatten(groups) == Remaining(parsed, c.mainTitle, c.subTitle)
      ensures WellGrouped(groups, c.identifiers)
      ensures blocks == GroupedBlocks(GroupedTitles(old(blocks), parsed, c), groups, c)
    {
      blocks := GroupedTitles(blocks, parsed, c);
      groups := GroupItems(Remaining(parsed, c.mainTitle, c.subTitle), c.identifiers);
      FillItems(groups, c);
    }

    /** `_populateFromConfig` for an atomic layout: the titles, then one new
      * block per remaining mapped block, inserted in order after the first
      * MAIN_TEXT block (or after the last block). */
    method PopulateAtomic(parsed: seq<Block>, c: ParsingConfig)
      requires c.Atomic?
      modifies this
      ensures blocks == AtomicPopulated(old(blocks), parsed, c)
    {
      var titled := AtomicTitles(blocks, parsed, c);
      var p := AtomicInsertAfter(titled) + 1;
      blocks := InsertAtomic(titled, p, Remaining(parsed, c.mainTitle, c.subTitle), c.blockMapping);
    }

    /** Step 3: the groups fill the slots in order; `start`, the container
      * as step 3 found it, locates each slot.  Returns how many slots were
      * moved from the front to the end. */
    method ReuseOrAppend(start: seq<UiBlock>, groups: seq<seq<Block>>, c: ParsingConfig) returns (moved: nat)
      requires c.Grouped? && ItemTypeOk(c) && blocks == start
      modifies this
      ensures moved == FrontMoves(start, groups, c, 0)
      ensures blocks == Placed(start, groups, c, |groups|, moved)
    {
      moved := 0;
      StagedStart(start, ItemsAfter(Items(start), groups, c));
      for g := 0 to |groups|
        invariant MovedSoFar(start, groups, c, g, moved)
        invariant blocks == Placed(start, groups, c, g, moved)
      {
        blocks, moved := PlaceGroup(blocks, start, groups, c, g, moved);
      }
    }

    /** Step 4: the slots of `start` from rank n on are removed in order,
      * each found at its place in `start` less the `moved` front blocks
      * and the slots removed before it; the headers among them stay. */
    method TrimItems(start: seq<UiBlock>, n: nat, moved: nat, ghost front: seq<UiBlock>, ghost tail: seq<UiBlock>)
      requires n <= |Items(start)| && moved <= SlotAt(start, n)
      requires |front| == SlotAt(start, n) - moved
      requires blocks == front + start[SlotAt(start, n)..] + tail
      modifies this
      ensures blocks == front + Headers(start[SlotAt(start, n)..]) + tail
    {
      var bs := blocks;
      TrimStateStart(start, n, moved, front, tail, bs);
      for i := n to |Items(start)|
        invariant TrimState(start, n, i, moved, front, tail, bs)
      {
        var p := ItemPos(start, i) - moved - (i - n);
        TrimStateStep(start, n, i, moved, front, tail, bs, p);
        bs := bs[..p] + bs[p + 1..];
      }
      TrimStateEnd(start, n, moved, front, tail, bs);
      blocks := bs;
    }

  }

  /** Group g goes into the block its slot was: the slot itself when it has
    * the group's type, otherwise a fresh block created after the slot's
    * previous sibling; with no slot g, a fresh block appended at the end. */
  method PlaceGroup(bs: seq<UiBlock>, start: seq<UiBlock>, groups: seq<seq<Block>>, c: ParsingConfig, g: nat, moved: nat)
    returns (cs: seq<UiBlock>, moved': nat)
    requires c.Grouped? && ItemTypeOk(c) && g < |groups|
    requires MovedSoFar(start, groups, c, g, moved) && bs == Placed(start, groups, c, g, moved)
    ensures MovedSoFar(start, groups, c, g + 1, moved') && cs == Placed(start, groups, c, g + 1, moved')
  {
    if g < |Items(start)| {
      cs, moved' := FillSlot(bs, start, groups, c, g, moved);
    } else {
      cs := AppendSlot(bs, start, groups, c, g, moved);
      moved' := moved;
    }
  }

  /** The block group g fills when slot g exists: the slot itself when it
    * has the group's type, otherwise a fresh block of that type. */
  lemma WantAtSlot(start: seq<UiBlock>, groups: seq<seq<Block>>, c: ParsingConfig, g: nat, q: nat)
    requires c.Grouped? && g < |groups| && g < |Items(start)| && q == ItemPos(start, g)
    ensures var kind := ItemTypeFor(c, groups[g]);
      ItemsAfter(Items(start), groups, c)[g]
        == FillUiBlock(if start[q].kind == kind then start[q] else NewBlock(kind, false, map[]),
                       ContentMapOf(groups[g]), c.itemMapping)
  {
    WantAt(Items(start), groups, c, g);
    ItemPosItem(start, g);
  }

  /** The count of moved slots after slot g: one more exactly when slot g
    * has the wrong type and is the first block. */
  lemma MovedAfterSlot(start: seq<UiBlock>, groups: seq<seq<Block>>, c: ParsingConfig, g: nat, moved: nat, q: nat)
    requires c.Grouped? && g < |groups| && g < |Items(start)| && MovedSoFar(start, groups, c, g, moved)
    requires q == ItemPos(start, g)
    ensures var kind := ItemTypeFor(c, groups[g]);
      moved <= q
      && (start[q].kind == kind || q > moved ==> MovedSoFar(start, groups, c, g + 1, moved))
      && (start[q].kind != kind && q == moved ==> q == g && MovedSoFar(start, groups, c, g + 1, moved + 1))
  {
    if moved == g && g < |start| && IsItem(start[g]) {
      FrontRank(start, g);
      RankPos(start, g);
    }
  }

  /** With no slot g, no slot moves. */
  lemma MovedAfterAppend(start: seq<UiBlock>, groups: seq<seq<Block>>, c: ParsingConfig, g: nat, moved: nat)
    requires c.Grouped? && |Items(start)| <= g < |groups| && MovedSoFar(start, groups, c, g, moved)
    ensures MovedSoFar(start, groups, c, g + 1, moved)
  {
    if moved == g && g < |start| && IsItem(start[g]) {
      FrontRank(start, g);
      RankPos(start, g);
    }
  }

  /** Slot g exists.  Kept when it has the group's type; otherwise a fresh
    * block is created after its previous sibling and the slot removed,
    * which puts the new block in the slot's place, or, when the slot is
    * the first block and has no previous sibling, at the end. */
  method FillSlot(bs: seq<UiBlock>, start: seq<UiBlock>, groups: seq<seq<Block>>, c: ParsingConfig, g: nat, moved: nat)
    returns (cs: seq<UiBlock>, moved': nat)
    requires c.Grouped? && ItemTypeOk(c) && g < |groups| && g < |Items(start)|
    requires MovedSoFar(start, groups, c, g, moved) && bs == Placed(start, groups, c, g, moved)
    ensures MovedSoFar(start, groups, c, g + 1, moved') && cs == Placed(start, groups, c, g + 1, moved')
  {
    ghost var want := ItemsAfter(Items(start), groups, c);
    var kind := ItemTypeFor(c, groups[g]);
    var cm := BuildContentMap(groups[g]);
    var q := ItemPos(start, g);
    var p := q - moved;
    WantAtSlot(start, groups, c, g, q);
    MovedAfterSlot(start, groups, c, g, moved, q);
    StagedFill(start, want, g, moved, p);
    if bs[p].kind == kind {
      cs := bs[p := FillUiBlock(bs[p], cm, c.itemMapping)];
      moved' := moved;
    } else if p > 0 {
      cs := bs[p := FillUiBlock(NewBlock(kind, false, map[]), cm, c.itemMapping)];
      moved' := moved;
    } else {
      StagedMove(start, want, g);
      cs := bs[1..] + [FillUiBlock(NewBlock(kind, false, map[]), cm, c.itemMapping)];
      moved' := moved + 1;
    }
  }

  /** There is no slot g: a fresh block is appended after the last block. */
  method AppendSlot(bs: seq<UiBlock>, start: seq<UiBlock>, groups: seq<seq<Block>>, c: ParsingConfig, g: nat, moved: nat)
    returns (cs: seq<UiBlock>)
    requires c.Grouped? && ItemTypeOk(c) && |Items(start)| <= g < |groups|
    requires MovedSoFar(start, groups, c, g, moved) && bs == Placed(start, groups, c, g, moved)
    ensures MovedSoFar(start, groups, c, g + 1, moved) && cs == Placed(start, groups, c, g + 1, moved)
  {
    ghost var slots := Items(start);
    ghost var want := ItemsAfter(slots, groups, c);
    var kind := ItemTypeFor(c, groups[g]);
    var cm := BuildContentMap(groups[g]);
    WantAt(slots, groups, c, g);
    StagedAppend(start, want, g, moved);
    MovedAfterAppend(start, groups, c, g, moved);
    cs := bs + [FillUiBlock(NewBlock(kind, false, map[]), cm, c.itemMapping)];
  }

  /** Step 2 of the atomic path: each mapped block becomes a new block
    * inserted after the one created before it, the first at position p. */
  method InsertAtomic(bs: seq<UiBlock>, p: nat, content: seq<Block>, mapping: map<string, string>)
    returns (cs: seq<UiBlock>)
    requires p <= |bs|
    ensures cs == bs[..p] + AtomicBlocks(content, mapping) + bs[p..]
  {
    cs := bs;
    var at := p;
    for i := 0 to |content|
      invariant cs == bs[..p] + AtomicBlocks(content[..i], mapping) + bs[p..]
      invariant at == p + |AtomicBlocks(content[..i], mapping)|
    {
      assert content[..i + 1][..i] == content[..i];
      var b := content[i];
      if b.kind in mapping {
        var nb := AtomicBlock(b, mapping[b.kind]);
        InsertAfterRun(bs, p, AtomicBlocks(content[..i], mapping), nb);
        cs := cs[..at] + [nb] + cs[at..];
        at := at + 1;
      }
    }
    assert content[..|content|] == content;
  }

  /** Inserting right after a run of inserted blocks extends the run. */
  lemma InsertAfterRun(bs: seq<UiBlock>, p: nat, run: seq<UiBlock>, x: UiBlock)
    requires p <= |bs|
    ensures var cs := bs[..p] + run + bs[p..];
      cs[..p + |run|] + [x] + cs[p + |run|..] == bs[..p] + (run + [x]) + bs[p..]
  {
    var cs := bs[..p] + run + bs[p..];
    assert cs[..p + |run|] == bs[..p] + run;
    assert cs[p + |run|..] == bs[p..];
  }

  lemma WantAt(slots: seq<UiBlock>, groups: seq<seq<Block>>, c: ParsingConfig, g: nat)
    requires c.Grouped? && g < |groups|
    ensures ItemsAfter(slots, groups, c)[g]
      == FillUiBlock(SlotFor(slots, g, ItemTypeFor(c, groups[g])), ContentMapOf(groups[g]), c.itemMapping)
  {
  }
}
