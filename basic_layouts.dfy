// The layout registry of the basic article editor (js/basic-article/layouts.js):
// editor templates (kept as the list of `data-field` names each holds),
// the `layouts` object with its `parsingConfig` records, and the lookups.

module BasicLayouts {
  import opened Wrappers
  import opened JsString
  import BasicMarkdown

  /** How one markdown block type fills an item block: into one field, or
    * each listed sub-field of the block's content into a field. */
  datatype Rule = ToField(target: string) | ToFields(pairs: seq<(string, string)>)

  /** The item block type: fixed, or chosen per group by
    * `dynamicItemBlockType`. */
  datatype ItemType = Fixed(kind: string) | ByContent

  datatype ParsingConfig =
    | Atomic(mainTitle: string, subTitle: Option<string>, blockMapping: map<string, string>)
    | Grouped(
        mainTitle: string,
        subTitle: Option<string>,
        mainTitleTarget: Option<(string, string)>,
        itemType: ItemType,
        identifiers: seq<string>,
        itemMapping: seq<(string, Rule)>)

  /** An entry of `initialBlocks`.  `titleEditor` marks the entries whose
    * `editorHtml` is the TITLE_BLOCK template. */
  datatype InitialBlock = InitialBlock(
    kind: string,
    isRemovable: bool,
    titleEditor: bool,
    initialData: map<string, string>,
    previewData: Option<map<string, string>>)

  /** A block as `getOrderedBlockData` hands it to the renderer: its type,
    * each field's trimmed value, and the fields flagged as removed. */
  datatype BlockData = BlockData(kind: string, content: map<string, string>, removedFields: set<string>)

  datatype LayoutDef = LayoutDef(
    id: string,
    name: string,
    initialBlocks: seq<InitialBlock>,
    insertableBlocks: map<string, seq<string>>,
    parsingConfig: Option<ParsingConfig>)

  // ---------------------------------------------------------------------
  // Editor templates

  const TemplateFields: map<string, seq<string>> := map[
    "MAIN_TEXT" := ["H2_TAG", "H2", "H3_TAG", "H3", "P"],
    "TITLE_BLOCK" := ["H2_TAG", "H2", "H3_TAG", "H3"],
    "MAIN_IMAGE" := ["URL", "ALT"],
    "H2" := ["TEXT"],
    "H3" := ["TEXT"],
    "P" := ["TEXT"],
    "AUTHOR" := ["TEXT"],
    "OL" := ["LIST_ITEMS"],
    "ANCHOR_ITEM" := ["TEXT", "HREF"],
    "UL" := ["LIST_ITEMS"],
    "A" := ["TEXT", "HREF"],
    "IMAGE" := ["URL", "ALT"],
    "HR" := [],
    "TABLE" := ["MARKDOWN"],
    "CARD" := ["URL", "ALT", "TITLE_TAG", "TITLE", "DESC"],
    "ICON_CARD" := ["URL", "ALT", "ICON_URL", "TITLE_TAG", "TITLE", "DESC"],
    "NUMBER_CARD" := ["ICON_URL", "ALT", "TITLE_TAG", "TITLE", "DESC"],
    "ONE_COLUMN_ITEM" := ["URL", "ALT", "TITLE_TAG", "TITLE", "SUBTITLE_TAG", "SUBTITLE", "DESC"],
    "ALT_ROW" := ["POSITION", "MAIN_URL", "MAIN_ALT", "SUBTITLE_TAG", "SUBTITLE", "DESC"],
    "STICKY_TEXT_ROW" := ["TITLE_TAG", "TITLE", "SUBTITLE_TAG", "SUBTITLE", "DESC"],
    "QA_ROW" := ["TITLE_TAG", "TITLE", "DESC"],
    "TWO_COL_IMAGE_ICON_ITEM" := ["ICON_URL", "ICON_ALT", "DESC"],
    "ICON_TITLE_CARD" := ["URL", "ALT", "TITLE_TAG", "TITLE", "DESC"],
    "IMAGE_TITLE_DESC_CARD" := ["URL", "ALT", "TITLE_TAG", "TITLE", "DESC"],
    "TEXT_CARD" := ["TITLE_TAG", "TITLE", "SUBTITLE_TAG", "SUBTITLE", "DESC"],
    "COMPANY_NAME" := ["COMPANY_NAME"],
    "COMPANY_TEXT_ITEM" := ["LABEL", "TEXT"],
    "COMPANY_LINK_ITEM" := ["LABEL", "TEXT"]]

  /** The options of a template's `<select>` input, in document order; a
    * text input or a textarea has none.  Every template that holds one of
    * these selects lists the same options for it. */
  function SelectOptions(field: string): seq<string>
  {
    if field in {"H2_TAG", "H3_TAG", "TITLE_TAG", "SUBTITLE_TAG"} then ["h1", "h2", "h3"]
    else if field == "POSITION" then ["image-left", "image-right"]
    else []
  }

  /** The value an input of a template has before anything writes to it:
    * the option marked `selected` (h2 for H2_TAG, h3 for the other tag
    * selects), the first option of a select without one (POSITION), and
    * "" for a text input or a textarea. */
  function FieldDefault(field: string): (v: string)
    ensures SelectOptions(field) == [] <==> v == ""
    ensures SelectOptions(field) != [] ==> v in SelectOptions(field)
  {
    if field == "H2_TAG" then "h2"
    else if field in {"H3_TAG", "TITLE_TAG", "SUBTITLE_TAG"} then "h3"
    else if field == "POSITION" then "image-left"
    else ""
  }

  /** An editor template: the empty string, or opaque HTML with these
    * input fields. */
  datatype Template = NoTemplate | Template(kind: string, fields: seq<string>)

  /** `getBlockEditorTemplate(type)`: every template is a non-empty string,
    * so `|| ''` yields "" exactly for a type without one. */
  function GetBlockEditorTemplate(kind: string): (t: Template)
    ensures t == NoTemplate <==> kind !in TemplateFields
    ensures t != NoTemplate ==> t.kind == kind && t.fields == TemplateFields[kind]
  {
    if kind in TemplateFields then Template(kind, TemplateFields[kind]) else NoTemplate
  }

  /** The input fields of a block created with the given editor. */
  function EditorFields(kind: string, titleEditor: bool): seq<string>
  {
    if titleEditor then TemplateFields["TITLE_BLOCK"]
    else if kind in TemplateFields then TemplateFields[kind]
    else []
  }

  // ---------------------------------------------------------------------
  // The registry

  const Articles: seq<string> := ["H2", "H3", "P", "UL", "OL", "A", "IMAGE", "HR", "TABLE"]

  function Plain(kind: string): InitialBlock
  {
    InitialBlock(kind, false, false, map[], None)
  }

  function Title(): InitialBlock
  {
    InitialBlock("MAIN_TEXT", false, true, map[], None)
  }

  function Item(kind: string, data: map<string, string>): InitialBlock
  {
    InitialBlock(kind, true, false, data, None)
  }

  const H3Tag: map<string, string> := map["TITLE_TAG" := "h3"]

  /** The grouped configs share everything but the item type, the
    * identifier and the mapping. */
  function GroupedConfig(kind: string, identifier: string, mapping: seq<(string, Rule)>): ParsingConfig
  {
    Grouped("H1", Some("H2"), None, Fixed(kind), [identifier], mapping)
  }

  function ImageRule(url: string, alt: string): (string, Rule)
  {
    ("IMAGE", ToFields([("URL", url), ("ALT", alt)]))
  }

  const AtomicMapping: map<string, string> := map[
    "H1" := "H2", "H3" := "H3", "P" := "P", "UL" := "UL", "OL" := "OL",
    "IMAGE" := "IMAGE", "H4" := "H4", "TABLE" := "TABLE"]

  const Article01: LayoutDef := LayoutDef("article-01", "上文下圖",
      [Plain("MAIN_TEXT"), Plain("MAIN_IMAGE")], map["default" := Articles],
      Some(Atomic("H1", Some("H2"), AtomicMapping)))

  const Article02: LayoutDef := LayoutDef("article-02", "右圖左文",
      [Plain("MAIN_TEXT"), Plain("MAIN_IMAGE")], map["default" := Articles],
      Some(Atomic("H1", Some("H2"), AtomicMapping)))

  const Article03: LayoutDef := LayoutDef("article-03", "左圖右文",
      [Plain("MAIN_IMAGE"), Plain("MAIN_TEXT")], map["default" := Articles],
      Some(Atomic("H1", Some("H2"), AtomicMapping)))

  const Article04: LayoutDef := LayoutDef("article-04", "兩欄_純文字+分隔線",
      [Title(), Item("TEXT_CARD", H3Tag), Item("TEXT_CARD", H3Tag)],
      map["TEXT_CARD" := ["TEXT_CARD"]],
      Some(GroupedConfig("TEXT_CARD", "H3",
        [("H3", ToField("TITLE")), ("H4", ToField("SUBTITLE")), ("P", ToField("DESC")), ("UL", ToField("DESC"))])))

  const Article05: LayoutDef := LayoutDef("article-05", "兩欄_圖片+標題+敘述",
      [Title(), Item("IMAGE_TITLE_DESC_CARD", H3Tag), Item("IMAGE_TITLE_DESC_CARD", H3Tag)],
      map["IMAGE_TITLE_DESC_CARD" := ["IMAGE_TITLE_DESC_CARD"]],
      Some(GroupedConfig("IMAGE_TITLE_DESC_CARD", "H3",
        [ImageRule("URL", "ALT"), ("H3", ToField("TITLE")), ("P", ToField("DESC")), ("UL", ToField("DESC"))])))

  const Article06: LayoutDef := LayoutDef("article-06", "QA列表",
      [Title(), Item("QA_ROW", H3Tag), Item("QA_ROW", H3Tag), Item("QA_ROW", H3Tag)],
      map["QA_ROW" := ["QA_ROW"]],
      Some(GroupedConfig("QA_ROW", "H3",
        [("H3", ToField("TITLE")), ("P", ToField("DESC")), ("UL", ToField("DESC"))])))

  const Article07: LayoutDef := LayoutDef("article-07", "右文左圖+左文右圖",
      [Title(), Item("ALT_ROW", map["SUBTITLE_TAG" := "h3"]),
       Item("ALT_ROW", map["POSITION" := "image-right", "SUBTITLE_TAG" := "h3"])],
      map["ALT_ROW" := ["ALT_ROW"]],
      Some(GroupedConfig("ALT_ROW", "H3",
        [ImageRule("MAIN_URL", "MAIN_ALT"), ("H3", ToField("SUBTITLE")), ("P", ToField("DESC")), ("UL", ToField("DESC"))])))

  const Article08: LayoutDef := LayoutDef("article-08", "一欄_純文字_數字+標題+敘述+sticky",
      [Title(), Item("STICKY_TEXT_ROW", H3Tag)],
      map["STICKY_TEXT_ROW" := ["STICKY_TEXT_ROW"]],
      Some(GroupedConfig("STICKY_TEXT_ROW", "H3",
        [("H3", ToField("TITLE")), ("P", ToField("DESC")), ("UL", ToField("DESC"))])))

  const Article13: LayoutDef := LayoutDef("article-13", "三欄_icon+標題+敘述+分隔線",
      [Title(), Item("ICON_TITLE_CARD", H3Tag), Item("ICON_TITLE_CARD", H3Tag), Item("ICON_TITLE_CARD", H3Tag)],
      map["ICON_TITLE_CARD" := ["ICON_TITLE_CARD"]],
      Some(GroupedConfig("ICON_TITLE_CARD", "H3",
        [ImageRule("URL", "ALT"), ("H3", ToField("TITLE")), ("P", ToField("DESC")), ("UL", ToField("DESC"))])))

  const Article14: LayoutDef := LayoutDef("article-14", "三欄_數字+icon+標題+敘述",
      [Title(), Item("NUMBER_CARD", H3Tag), Item("NUMBER_CARD", H3Tag), Item("NUMBER_CARD", H3Tag)],
      map["NUMBER_CARD" := ["NUMBER_CARD"]],
      Some(GroupedConfig("NUMBER_CARD", "H3",
        [ImageRule("ICON_URL", "ALT"), ("H3", ToField("TITLE")), ("P", ToField("DESC")), ("UL", ToField("DESC"))])))

  const Article09: LayoutDef := LayoutDef("article-09", "一欄_圖片+標題+小標+敘述",
      [Title(), Item("ONE_COLUMN_ITEM", H3Tag)],
      map["ONE_COLUMN_ITEM" := ["ONE_COLUMN_ITEM"]],
      Some(GroupedConfig("ONE_COLUMN_ITEM", "H3",
        [ImageRule("URL", "ALT"), ("H3", ToField("TITLE")), ("H4", ToField("SUBTITLE")),
         ("P", ToField("DESC")), ("UL", ToField("DESC"))])))

  const Article10: LayoutDef := LayoutDef("article-10", "兩欄_圖片+icon+標題+敘述",
      [Title(), Item("ICON_CARD", H3Tag), Item("ICON_CARD", H3Tag)],
      map["ICON_CARD" := ["ICON_CARD"]],
      Some(GroupedConfig("ICON_CARD", "H3",
        [ImageRule("URL", "ALT"), ("H3", ToField("TITLE")), ("P", ToField("DESC")), ("UL", ToField("DESC"))])))

  const Article11: LayoutDef := LayoutDef("article-11", "兩欄_左圖+右icon+標題+敘述",
      [Title(), Item("MAIN_IMAGE", map[]), Item("TWO_COL_IMAGE_ICON_ITEM", map[])],
      map["TWO_COL_IMAGE_ICON_ITEM" := ["TWO_COL_IMAGE_ICON_ITEM"]],
      Some(GroupedConfig("TWO_COL_IMAGE_ICON_ITEM", "H3",
        [ImageRule("ICON_URL", "ICON_ALT"), ("H3", ToField("TITLE")), ("P", ToField("DESC")), ("UL", ToField("DESC"))])))

  const Article12: LayoutDef := LayoutDef("article-12", "三欄_圖片+標題+敘述",
      [Title(), Item("CARD", H3Tag), Item("CARD", H3Tag), Item("CARD", H3Tag)],
      map["CARD" := ["CARD"]],
      Some(GroupedConfig("CARD", "H3",
        [ImageRule("URL", "ALT"), ("H3", ToField("TITLE")), ("P", ToField("DESC")), ("UL", ToField("DESC"))])))

  const Article15: LayoutDef := LayoutDef("article-15", "電子表單B-公司資訊",
      [ InitialBlock("COMPANY_NAME", false, false, map[], Some(map["COMPANY_NAME" := "公司名稱"])),
        InitialBlock("COMPANY_LINK_ITEM", true, false, map[],
          Some(map["LABEL" := "電話", "TEXT" := "04-12345678", "HREF" := "tel:04-12345678"])),
        InitialBlock("COMPANY_TEXT_ITEM", true, false, map[], Some(map["LABEL" := "傳真", "TEXT" := "04-2222222"])),
        InitialBlock("COMPANY_TEXT_ITEM", true, false, map[],
          Some(map["LABEL" := "地址", "TEXT" := "403臺中市西區大隆路20號4F - 2"])),
        InitialBlock("COMPANY_LINK_ITEM", true, false, map[],
          Some(map["LABEL" := "信箱", "TEXT" := "123@gmail.com", "HREF" := "mailto:123@gmail.com"])) ],
      map["default" := ["COMPANY_TEXT_ITEM", "COMPANY_LINK_ITEM"]],
      Some(Grouped("H3", None, Some(("COMPANY_NAME", "COMPANY_NAME")), ByContent, ["H4"],
        [("H4", ToField("LABEL")), ("P", ToField("TEXT"))])))

  const Article16: LayoutDef := LayoutDef("article-16", "表格",
      [Plain("TABLE")], map["default" := ["TABLE"]],
      Some(GroupedConfig("TABLE", "TABLE", [("TABLE", ToField("MARKDOWN"))])))

  /** `layouts`: the registry, keyed by layout id. */
  const Layouts: map<string, LayoutDef> := map[
    "article-01" := Article01,
    "article-02" := Article02,
    "article-03" := Article03,
    "article-04" := Article04,
    "article-05" := Article05,
    "article-06" := Article06,
    "article-07" := Article07,
    "article-08" := Article08,
    "article-13" := Article13,
    "article-14" := Article14,
    "article-09" := Article09,
    "article-10" := Article10,
    "article-11" := Article11,
    "article-12" := Article12,
    "article-15" := Article15,
    "article-16" := Article16]

  /** `getLayoutDefinition(layoutId)`: `layouts[layoutId]`, undefined for an
    * id not in the registry; an entry's `id` is its key. */
  function GetLayoutDefinition(layoutId: string): (r: Option<LayoutDef>)
    ensures r.Some? <==> layoutId in Layouts
    ensures r.Some? ==> r.value.id == layoutId && r.value == Layouts[layoutId]
  {
    if layoutId in Layouts then
      assert Layouts[layoutId].id == layoutId by { RegistryIdsMatchKeys(); }
      Some(Layouts[layoutId])
    else None
  }

  /** Every registry entry's `id` equals its key. */
  lemma RegistryIdsMatchKeys()
    ensures forall id :: id in Layouts ==> Layouts[id].id == id
  {
  }

  /** `dynamicItemBlockType(group)`: a link item exactly when the group's
    * first P block mentions `tel:`, `mailto:` or `http`. */
  function DynamicItemBlockType(group: seq<BasicMarkdown.Block>): (kind: string)
    ensures kind == "COMPANY_LINK_ITEM" <==>
      exists k :: 0 <= k < |group| && group[k].kind == "P"
        && (forall j :: 0 <= j < k ==> group[j].kind != "P")
        && IsLinkText(group[k].content)
    ensures kind != "COMPANY_LINK_ITEM" ==> kind == "COMPANY_TEXT_ITEM"
  {
    var k := FirstP(group, 0);
    if k >= 0 && IsLinkText(group[k].content) then "COMPANY_LINK_ITEM" else "COMPANY_TEXT_ITEM"
  }

  /** P blocks of the basic parser always carry text. */
  predicate IsLinkText(c: BasicMarkdown.Content)
  {
    c.Text? && (Contains(c.text, "tel:") || Contains(c.text, "mailto:") || Contains(c.text, "http"))
  }

  function FirstP(group: seq<BasicMarkdown.Block>, k: nat): (r: int)
    ensures r == -1 || (k <= r < |group| && group[r].kind == "P")
    ensures forall j :: k <= j < |group| && (r == -1 || j < r) ==> group[j].kind != "P"
    decreases |group| - k
  {
    if k >= |group| then -1
    else if group[k].kind == "P" then k
    else FirstP(group, k + 1)
  }

  // ---------------------------------------------------------------------

  /** `_getFullBlockInfo(blockInfo, layoutDef)`: the type's own entry, else
    * the `default` entry (undefined when neither exists). */
  function GetFullBlockInfo(kind: string, layout: LayoutDef): (r: Option<seq<string>>)
    ensures kind in layout.insertableBlocks ==> r == Some(layout.insertableBlocks[kind])
    ensures kind !in layout.insertableBlocks && "default" in layout.insertableBlocks ==>
      r == Some(layout.insertableBlocks["default"])
    ensures kind !in layout.insertableBlocks && "default" !in layout.insertableBlocks ==> r.None?
  {
    if kind in layout.insertableBlocks then Some(layout.insertableBlocks[kind])
    else if "default" in layout.insertableBlocks then Some(layout.insertableBlocks["default"])
    else None
  }
}

module BasicLayoutFacts {
  import opened Wrappers
  import opened BasicLayouts

  /** The blocks the populator treats as header rather than as item slots. */
  predicate IsHeaderKind(kind: string)
  {
    kind == "MAIN_TEXT" || kind == "MAIN_IMAGE" || kind == "TITLE_BLOCK"
  }

  /** The atomic layouts map H1 to the H2 field and leave H2 to the
    * subtitle rule. */
  predicate AtomicShape(c: ParsingConfig)
    requires c.Atomic?
  {
    c.mainTitle == "H1" && c.subTitle == Some("H2")
    && "H1" in c.blockMapping && c.blockMapping["H1"] == "H2" && "H2" !in c.blockMapping
  }

  /** A grouped layout other than the company form: H1 title, H2 subtitle,
    * items starting at H3 (at TABLE for the table layout), P and UL both
    * into DESC, header blocks first, and a first slot that either follows
    * a header block or already has the item type. */
  predicate GroupedShape(d: LayoutDef, c: ParsingConfig)
    requires c.Grouped?
  {
    c.mainTitle == "H1" && c.subTitle == Some("H2") && c.mainTitleTarget.None?
    && c.itemType.Fixed?
    && c.identifiers == (if d.id == "article-16" then ["TABLE"] else ["H3"])
    && (forall k :: 0 <= k < |c.itemMapping| && c.itemMapping[k].0 in {"P", "UL"} ==>
          c.itemMapping[k].1 == ToField("DESC"))
    && (d.id != "article-16" ==>
          |c.itemMapping| > 0 && c.itemMapping[|c.itemMapping| - 1] == ("UL", ToField("DESC")))
    && HeaderFirst(d.initialBlocks)
    && |d.initialBlocks| > 0
    && (IsHeaderKind(d.initialBlocks[0].kind) || d.initialBlocks[0].kind == c.itemType.kind)
  }

  /** The item type is a non-empty type that is not a header type (a
    * type chosen per group is one of the company item types). */
  predicate ItemTypeOk(c: ParsingConfig)
    requires c.Grouped?
  {
    c.itemType.Fixed? ==> c.itemType.kind != "" && !IsHeaderKind(c.itemType.kind)
  }

  predicate HeaderFirst(bs: seq<InitialBlock>)
  {
    forall i, j :: 0 <= i < j < |bs| && IsHeaderKind(bs[j].kind) ==> IsHeaderKind(bs[i].kind)
  }

  lemma RegistryKeys(id: string)
    requires id in Layouts
    ensures id in {"article-01", "article-02", "article-03", "article-04", "article-05",
      "article-06", "article-07", "article-08", "article-09", "article-10", "article-11",
      "article-12", "article-13", "article-14", "article-15", "article-16"}
  {
  }

  /** What the registry promises of one entry. */
  predicate EntryShape(id: string, d: LayoutDef)
  {
    d.parsingConfig.Some?
    && (d.parsingConfig.value.Atomic? <==> id in {"article-01", "article-02", "article-03"})
    && (d.parsingConfig.value.Atomic? ==> AtomicShape(d.parsingConfig.value))
    && (d.parsingConfig.value.Grouped? && id != "article-15" ==> GroupedShape(d, d.parsingConfig.value))
    && (d.parsingConfig.value.Grouped? ==> ItemTypeOk(d.parsingConfig.value))
  }

  lemma Shape01() ensures EntryShape("article-01", Article01) { }
  lemma Lookup01() ensures Layouts["article-01"] == Article01 { }
  lemma Shape02() ensures EntryShape("article-02", Article02) { }
  lemma Lookup02() ensures Layouts["article-02"] == Article02 { }
  lemma Shape03() ensures EntryShape("article-03", Article03) { }
  lemma Lookup03() ensures Layouts["article-03"] == Article03 { }
  lemma Shape04() ensures EntryShape("article-04", Article04) { }
  lemma Lookup04() ensures Layouts["article-04"] == Article04 { }
  lemma Shape05() ensures EntryShape("article-05", Article05) { }
  lemma Lookup05() ensures Layouts["article-05"] == Article05 { }
  lemma Shape06() ensures EntryShape("article-06", Article06) { }
  lemma Lookup06() ensures Layouts["article-06"] == Article06 { }
  lemma Shape07() ensures EntryShape("article-07", Article07) { }
  lemma Lookup07() ensures Layouts["article-07"] == Article07 { }
  lemma Shape08() ensures EntryShape("article-08", Article08) { }
  lemma Lookup08() ensures Layouts["article-08"] == Article08 { }
  lemma Shape09() ensures EntryShape("article-09", Article09) { }
  lemma Lookup09() ensures Layouts["article-09"] == Article09 { }
  lemma Shape10() ensures EntryShape("article-10", Article10) { }
  lemma Lookup10() ensures Layouts["article-10"] == Article10 { }
  lemma Shape11() ensures EntryShape("article-11", Article11) { }
  lemma Lookup11() ensures Layouts["article-11"] == Article11 { }
  lemma Shape12() ensures EntryShape("article-12", Article12) { }
  lemma Lookup12() ensures Layouts["article-12"] == Article12 { }
  lemma Shape13() ensures EntryShape("article-13", Article13) { }
  lemma Lookup13() ensures Layouts["article-13"] == Article13 { }
  lemma Shape14() ensures EntryShape("article-14", Article14) { }
  lemma Lookup14() ensures Layouts["article-14"] == Article14 { }
  lemma Shape15() ensures EntryShape("article-15", Article15) { }
  lemma Lookup15() ensures Layouts["article-15"] == Article15 { }
  lemma Shape16() ensures EntryShape("article-16", Article16) { }
  lemma Lookup16() ensures Layouts["article-16"] == Article16 { }

  /** Every registered layout carries a parsing config, so the fallback
    * populator for layouts without one is never reached; atomic ones are
    * article-01..03 and have the atomic shape, grouped ones but the
    * company form have the grouped shape. */
  lemma RegistryConfigs()
    ensures forall id :: id in Layouts ==> EntryShape(id, Layouts[id])
  {
    forall id | id in Layouts
      ensures EntryShape(id, Layouts[id])
    {
      RegistryKeys(id);
      if id == "article-01" {
        Lookup01(); Shape01();
      } else if id == "article-02" {
        Lookup02(); Shape02();
      } else if id == "article-03" {
        Lookup03(); Shape03();
      } else if id == "article-04" {
        Lookup04(); Shape04();
      } else if id == "article-05" {
        Lookup05(); Shape05();
      } else if id == "article-06" {
        Lookup06(); Shape06();
      } else if id == "article-07" {
        Lookup07(); Shape07();
      } else if id == "article-08" {
        Lookup08(); Shape08();
      } else if id == "article-09" {
        Lookup09(); Shape09();
      } else if id == "article-10" {
        Lookup10(); Shape10();
      } else if id == "article-11" {
        Lookup11(); Shape11();
      } else if id == "article-12" {
        Lookup12(); Shape12();
      } else if id == "article-13" {
        Lookup13(); Shape13();
      } else if id == "article-14" {
        Lookup14(); Shape14();
      } else if id == "article-15" {
        Lookup15(); Shape15();
      } else if id == "article-16" {
        Lookup16(); Shape16();
      }
    }
  }

  /** Every grouped registry entry but the company form and the table
    * ends its item mapping with the UL rule into DESC. */
  lemma GroupedEndsWithList(id: string)
    requires id in Layouts && id !in {"article-01", "article-02", "article-03", "article-15", "article-16"}
    ensures var c := Layouts[id].parsingConfig;
      c.Some? && c.value.Grouped? && |c.value.itemMapping| > 0
      && c.value.itemMapping[|c.value.itemMapping| - 1] == ("UL", ToField("DESC"))
  {
    RegistryConfigs();
    assert EntryShape(id, Layouts[id]);
    RegistryIdsMatchKeys();
  }

  /** The company form: title from the first H3 into COMPANY_NAME, items
    * from each H4, block type chosen per group. */
  lemma CompanyFormConfig()
    ensures Layouts["article-15"].parsingConfig == Some(Grouped("H3", None,
      Some(("COMPANY_NAME", "COMPANY_NAME")), ByContent, ["H4"],
      [("H4", ToField("LABEL")), ("P", ToField("TEXT"))]))
  {
  }
}
