// The live preview's data of the basic article editor (`updatePreview` in
// js/basic-article/script.js): each block read from the editor is merged
// with the sample content (`previewData`) of the first initial block of
// the same type, so that empty inputs show the sample text.

module BasicPreview {
  import opened Wrappers
  import opened BasicLayouts

  /** The index of the first initial block of the given type (-1: none). */
  function FirstInitial(bs: seq<InitialBlock>, kind: string): (r: int)
    ensures -1 <= r < |bs|
    ensures r >= 0 ==> bs[r].kind == kind && forall j :: 0 <= j < r ==> bs[j].kind != kind
    ensures r < 0 ==> forall j :: 0 <= j < |bs| ==> bs[j].kind != kind
  {
    if bs == [] then -1
    else if bs[0].kind == kind then 0
    else
      var r := FirstInitial(bs[1..], kind);
      if r < 0 then -1 else r + 1
  }

  /** The sample content overridden by every non-empty editor value. */
  function Merge(sample: map<string, string>, ui: map<string, string>): map<string, string>
  {
    map key | key in sample.Keys + ui.Keys && (key in sample || ui[key] != "") ::
      if key in ui && ui[key] != "" then ui[key] else sample[key]
  }

  /** The sample content for a block's type, if its first initial block of
    * that type has one (an empty sample object still counts). */
  function SampleFor(layout: LayoutDef, kind: string): Option<map<string, string>>
  {
    var k := FirstInitial(layout.initialBlocks, kind);
    if k >= 0 then layout.initialBlocks[k].previewData else None
  }

  /** One block of the preview data: merged with its sample when there is
    * one, as read from the editor otherwise; type and removed fields are
    * kept either way. */
  function MergePreview(layout: LayoutDef, d: BlockData): (r: BlockData)
    ensures r.kind == d.kind && r.removedFields == d.removedFields
    ensures SampleFor(layout, d.kind).None? ==> r == d
  {
    match SampleFor(layout, d.kind)
    case Some(sample) => d.(content := Merge(sample, d.content))
    case None => d
  }

  /** The merged fields are the sample's fields and the non-empty editor
    * fields: a non-empty editor value wins, otherwise the sample's value
    * stands, and an empty editor value without a sample is dropped. */
  lemma MergeFields(sample: map<string, string>, ui: map<string, string>, key: string)
    ensures key in Merge(sample, ui) <==> key in sample || (key in ui && ui[key] != "")
    ensures key in ui && ui[key] != "" ==> Merge(sample, ui)[key] == ui[key]
    ensures key in sample && (key !in ui || ui[key] == "") ==> Merge(sample, ui)[key] == sample[key]
  {
  }

  /** Merging again with the same sample changes nothing. */
  lemma MergeIdempotent(sample: map<string, string>, ui: map<string, string>)
    ensures Merge(sample, Merge(sample, ui)) == Merge(sample, ui)
  {
    var once := Merge(sample, ui);
    var twice := Merge(sample, once);
    forall key | key in twice ensures key in once && twice[key] == once[key] {
      MergeFields(sample, ui, key);
      MergeFields(sample, once, key);
    }
    forall key | key in once ensures key in twice {
      MergeFields(sample, once, key);
    }
  }

  /** A block whose non-empty values cover the sample's fields is shown as
    * it is, minus its empty fields. */
  lemma MergeOverFullBlock(sample: map<string, string>, ui: map<string, string>)
    requires forall key :: key in sample ==> key in ui && ui[key] != ""
    ensures Merge(sample, ui) == map key | key in ui && ui[key] != "" :: ui[key]
  {
  }

  /** The preview data, block by block, in editor order. */
  function MergeAll(layout: LayoutDef, data: seq<BlockData>): (r: seq<BlockData>)
    ensures |r| == |data|
    ensures forall k :: 0 <= k < |data| ==> r[k] == MergePreview(layout, data[k])
  {
    seq(|data|, k requires 0 <= k < |data| => MergePreview(layout, data[k]))
  }
}
