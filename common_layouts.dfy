// The layout registry of the world article editor (js/common/layouts.js):
// static data plus two lookups.  Editor templates are opaque HTML; the model
// keeps, per block type, only the `data-field` names the template holds.

module CommonLayouts {
  import opened Wrappers

  datatype InitialBlock = InitialBlock(kind: string, isRemovable: bool)

  datatype LayoutDef = LayoutDef(
    id: string,
    name: string,
    initialBlocks: seq<InitialBlock>,
    insertableBlocks: map<string, seq<string>>)

  /** An editor template: the empty string, or opaque HTML with the given
    * input fields. */
  datatype Template = NoTemplate | Template(kind: string, fields: seq<string>)

  /** The block types that open a section of the editor and of the output. */
  const SectionOpeners: set<string> := {"AUTHOR_BLOCK", "ANCHOR_LIST", "MAIN_CONTENT_BLOCK", "CTA"}

  const TemplateFields: map<string, seq<string>> := map[
    "AUTHOR_BLOCK" := [],
    "ANCHOR_LIST" := [],
    "MAIN_CONTENT_BLOCK" := [],
    "AUTHOR" := ["TEXT"],
    "MAIN_IMAGE" := ["URL", "ALT"],
    "H2" := ["TEXT"],
    "H3" := ["TEXT"],
    "H4" := ["TEXT"],
    "P" := ["TEXT"],
    "UL" := ["LIST_ITEMS"],
    "OL" := ["LIST_ITEMS"],
    "ANCHOR_ITEM" := ["TEXT", "HREF"],
    "A" := ["TEXT", "HREF"],
    "IMAGE" := ["URL", "ALT"],
    "HR" := [],
    "CTA" := ["TITLE", "DESCRIPTION"],
    "QA_BLOCK" := ["TITLE", "MARKDOWN"],
    "EXTENDED_READING" := ["LINKS"],
    "BLOCKQUOTE" := ["TEXT"],
    "TABLE" := ["MARKDOWN"],
    "VIDEO" := ["SRC"]]

  /** `getBlockEditorTemplate(type)`: the template, or "" when there is none. */
  function GetBlockEditorTemplate(kind: string): (t: Template)
    ensures t == NoTemplate <==> kind !in TemplateFields
    ensures t != NoTemplate ==> t.kind == kind && t.fields == TemplateFields[kind]
  {
    if kind in TemplateFields then Template(kind, TemplateFields[kind]) else NoTemplate
  }

  const DefaultInsertableBlocks: seq<string> := [
    "H2", "H3", "H4", "P", "UL", "OL", "A", "IMAGE", "HR",
    "QA_BLOCK", "EXTENDED_READING", "BLOCKQUOTE", "TABLE", "VIDEO"]

  const TextOverImage: LayoutDef := LayoutDef(
    "text-over-image",
    "上文下圖",
    [ InitialBlock("AUTHOR_BLOCK", false),
      InitialBlock("AUTHOR", true),
      InitialBlock("H2", true),
      InitialBlock("P", true),
      InitialBlock("P", true),
      InitialBlock("ANCHOR_LIST", false),
      InitialBlock("ANCHOR_ITEM", true),
      InitialBlock("ANCHOR_ITEM", true),
      InitialBlock("MAIN_CONTENT_BLOCK", false),
      InitialBlock("H2", true),
      InitialBlock("CTA", false) ],
    map[
      "default" := DefaultInsertableBlocks,
      "AUTHOR_BLOCK" := DefaultInsertableBlocks,
      "AUTHOR" := DefaultInsertableBlocks,
      "H2" := DefaultInsertableBlocks,
      "H3" := DefaultInsertableBlocks,
      "H4" := DefaultInsertableBlocks,
      "P" := DefaultInsertableBlocks,
      "ANCHOR_LIST" := ["ANCHOR_ITEM"],
      "ANCHOR_ITEM" := ["ANCHOR_ITEM"],
      "EXTENDED_READING" := DefaultInsertableBlocks,
      "MAIN_CONTENT_BLOCK" := DefaultInsertableBlocks])

  const Layouts: map<string, LayoutDef> := map["text-over-image" := TextOverImage]

  /** `getLayoutDefinition(layoutId)`: `layouts[layoutId]`, undefined for an
    * id not in the registry. */
  function GetLayoutDefinition(layoutId: string): (r: Option<LayoutDef>)
    ensures r.Some? <==> layoutId == "text-over-image"
    ensures r.Some? ==> r.value.id == layoutId
  {
    if layoutId in Layouts then Some(Layouts[layoutId]) else None
  }

  /** The registry holds one layout, whose initial blocks are the quote
    * section, the anchor list with two items, the main content section with
    * one heading, and the call to action; exactly the section openers are
    * not removable. */
  lemma InitialBlocksShape()
    ensures var ib := TextOverImage.initialBlocks;
      (seq(|ib|, k requires 0 <= k < |ib| => ib[k].kind)) ==
        ["AUTHOR_BLOCK", "AUTHOR", "H2", "P", "P", "ANCHOR_LIST", "ANCHOR_ITEM", "ANCHOR_ITEM",
         "MAIN_CONTENT_BLOCK", "H2", "CTA"]
      && forall k :: 0 <= k < |ib| ==> (ib[k].isRemovable <==> ib[k].kind !in SectionOpeners)
  {
  }

  /** No section opener can be inserted through the default list. */
  lemma DefaultInsertableHasNoOpeners()
    ensures forall k :: 0 <= k < |DefaultInsertableBlocks| ==> DefaultInsertableBlocks[k] !in SectionOpeners
  {
  }

  /** Inside and after an anchor list only anchor items can be inserted, and
    * no insertion list of the layout offers a section opener. */
  lemma InsertableBlocksShape()
    ensures TextOverImage.insertableBlocks["ANCHOR_LIST"] == ["ANCHOR_ITEM"]
    ensures TextOverImage.insertableBlocks["ANCHOR_ITEM"] == ["ANCHOR_ITEM"]
    ensures forall key :: key in TextOverImage.insertableBlocks ==>
      forall k :: 0 <= k < |TextOverImage.insertableBlocks[key]| ==> TextOverImage.insertableBlocks[key][k] !in SectionOpeners
  {
    DefaultInsertableHasNoOpeners();
  }
}
