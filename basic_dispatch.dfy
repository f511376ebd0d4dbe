/** The id-to-generator table of the basic layout manager. */
module BasicDispatch {
  import opened Wrappers
  import opened BasicLayouts
  import opened BasicLayoutFacts

  /** The dedicated generators of `layoutGenerators`. */
  datatype Generator =
    | CardGrid | IconCardGrid | NumberCardGrid | OneColumn | AlternatingRows | StickyList
    | QaList | IconTitleGrid | ImageIconList | ImageTitleGrid | TextCardGrid | CompanyInfo | TableLayout

  /** `layoutGenerators[layoutId]`; None sends the layout down the SEO blog path. */
  function GeneratorOf(layoutId: string): (g: Option<Generator>)
    ensures g == Some(CompanyInfo) ==> layoutId == "article-15"
  {
    if layoutId == "article-12" then Some(CardGrid)
    else if layoutId == "article-10" then Some(IconCardGrid)
    else if layoutId == "article-14" then Some(NumberCardGrid)
    else if layoutId == "article-09" then Some(OneColumn)
    else if layoutId == "article-07" then Some(AlternatingRows)
    else if layoutId == "article-08" then Some(StickyList)
    else if layoutId == "article-06" then Some(QaList)
    else if layoutId == "article-13" then Some(IconTitleGrid)
    else if layoutId == "article-11" then Some(ImageIconList)
    else if layoutId == "article-05" then Some(ImageTitleGrid)
    else if layoutId == "article-04" then Some(TextCardGrid)
    else if layoutId == "article-15" then Some(CompanyInfo)
    else if layoutId == "article-16" then Some(TableLayout)
    else None
  }

  /** article-01 to article-03 have no dedicated generator. */
  lemma SeoLayoutsUndedicated(layoutId: string)
    requires layoutId in {"article-01", "article-02", "article-03"}
    ensures GeneratorOf(layoutId).None?
  {
  }

  /** Every layout with a dedicated generator is registered. */
  lemma DedicatedLayoutsRegistered(layoutId: string)
    requires GeneratorOf(layoutId).Some?
    ensures layoutId in Layouts
  {
  }

  /** Every registered layout other than article-01 to article-03 has a
    * dedicated generator. */
  lemma RegisteredLayoutsDedicated(layoutId: string)
    requires layoutId in Layouts && layoutId !in {"article-01", "article-02", "article-03"}
    ensures GeneratorOf(layoutId).Some?
  {
    RegistryKeys(layoutId);
  }

  /** The SEO blog layouts are registered. */
  lemma SeoRegistered(layoutId: string)
    requires layoutId in {"article-01", "article-02", "article-03"}
    ensures layoutId in Layouts
  {
    Lookup01();
    Lookup02();
    Lookup03();
  }
}
