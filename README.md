# Article block editor: parsers, populator, renderers and layout registries

The system is a browser tool that turns Markdown into article HTML in two flavours:

- The **basic article** editor (`js/basic-article/`):
  - parses Markdown into typed blocks (`_parseMarkdown`);
  - pours those blocks into the editor blocks of the chosen layout (`_populateFromConfig`, `_fillUiBlock`, the article-15 company form);
  - merges sample content into the preview;
  - renders one of sixteen layouts to HTML (`layout-manager.js`), looked up in a registry of layouts (`layouts.js`).
- The **world article** editor (`js/world-article/script.js`):
  - parses Markdown with a different rule set, including a QA rule;
  - parses the anchor-list Markdown and replaces the anchor items of the anchor section;
  - renders the single `text-over-image` layout through the shared `js/common/layout-manager.js` and the `js/common/layouts.js` registry. The layout is made of sections: a quote section, an anchor list, a main content section and a call to action.

The model keeps the source's structure:

- Each parser is a `method` with the source's loop, proved equal to a step function (`Step`, `ParseFrom`). The parse properties are lemmas about that step function.
- The editor's block list is the class `BasicEditor.Editor`. Its `blocks` field is reassigned by the populating methods.
- `generateContentHTML` of the common layout manager is a method of the class `CommonScan.LayoutManager`, which stores the merged configuration.
- The SEO blog scans are loops proved against recursive scan functions.
- Pure helpers (lists, tables, descriptions, titles, escaping) are functions.

A source loop that never ends is modelled as the outcome `Diverges(at, emitted)`: a step that leaves the cursor where it was. Two loops stall this way:

- the basic parser's UL branch on a line such as `-` or `*x`;
- the world parser's QA branch on a `# ` line followed by a rule line.

The lemmas prove exactly when this happens.

Where the code's own comments promise something else, the model follows the code:

- The basic parser's `###` test comes before its `#### ` test, so `#### x` becomes an H3 holding `# x`.
- Paragraphs of the basic parser keep their `**` markers.
- A `####` line also names the company in the article-15 form.
- The company form's link test (`tel:`/`mailto:`) differs from the layout's (`tel:`/`mailto:`/`http`).

Strings are `seq<char>`. A JavaScript value that may be missing is an `Option` or a key absent from a `map`:

- `x || d` is `JsString.OrElse`;
- `x ?? d` is a test for the key.

## Model

| member | source | states |
|---|---|---|
| JsString.Trim | js/basic-article/script.js:234 | the trimmed line is the slice of the input after its leading white space, neither starts nor ends with white space, and only white space was cut on either side |
| JsString.TrimStart | js/basic-article/script.js:234 | only leading white space is cut, and the result does not start with white space |
| JsString.TrimEnd | js/basic-article/script.js:234 | only trailing white space is cut, and the result does not end with white space |
| JsString.BlankAllSpace | js/basic-article/layout-manager.js:218 | a line trims to the empty string exactly when it is all white space |
| JsString.TrimIdempotent | js/world-article/script.js:285 | trimming an already trimmed line changes nothing (the world parser trims lines that were trimmed before) |
| JsString.NonBlankEmpty | js/common/layout-manager.js:265 | `filter(l => l.trim())` keeps nothing exactly when every line is blank |
| JsString.NonBlankLinesEmpty | js/common/layout-manager.js:351-353 | a string is blank exactly when none of its lines is non-blank, so the list's second emptiness test never fires after the first |
| JsString.IndexOf | js/basic-article/layouts.js:493-498 | `indexOf` finds the first occurrence at or after the start position, or -1 when there is none |
| JsString.Substring | js/basic-article/script.js:257 | `substring(a, b)` clamps both indices to the string and swaps them when reversed |
| JsString.Split | js/basic-article/script.js:234 | `split(c)` gives at least one piece and no piece contains the separator |
| JsString.JoinSplit | js/basic-article/script.js:305 | joining the pieces of a split with the same separator gives back the input |
| JsString.SplitJoin | js/world-article/script.js:289 | splitting separator-free items joined with the separator gives back the items |
| JsString.RemoveBoldClean | js/common/layout-manager.js:170 | `replace(/\*\*/g, '')` leaves no `**`, never lengthens the text and keeps a first character other than `*` |
| JsString.RemoveBoldNoStar | js/world-article/script.js:275 | text without `*` is unchanged by bold removal |
| JsString.DecimalRoundTrip | js/common/layout-manager.js:179 | `String(n)` denotes `n`: reading its digits back gives `n` |
| JsString.PadStart2Denotes | js/common/layout-manager.js:179 | `padStart(2, '0')` gives at least two digits that still denote the number |
| JsString.FixEscapedOrdinal | js/basic-article/script.js:388 | `replace(/(\d+)\\\./, '$1.')` removes exactly the backslash of the first digit-backslash-dot, and nothing when there is none |
| JsString.OrElse | js/basic-article/layout-manager.js:171 | `content.KEY \|\| dflt` is the value when present and non-empty, the default otherwise |
| JsString.ToUpper | js/basic-article/script.js:845 | on the ASCII field names it is applied to, `toUpperCase()` keeps the length and maps each letter to its capital |
| JsString.NatToString | js/basic-article/layout-manager.js:356 | `String(n)` is a non-empty run of digits with no leading zero unless n is 0 |
| HtmlEscape.EscapeValue | js/basic-article/layout-manager.js:196-200 | a value that is not a string escapes to the empty string |
| HtmlEscape.EscapeConcat | js/common/layout-manager.js:344-348 | escaping works character by character: escaping a concatenation concatenates the escapes |
| HtmlEscape.EscapeSafe | js/common/layout-manager.js:344-348 | escaped text contains none of `< > " '` |
| HtmlEscape.EscapePlain | js/basic-article/layout-manager.js:196-200 | text without `& < > " '` is left as it is |
| HtmlEscape.UnescapeEscape | js/common/layout-manager.js:346-347 | decoding the five entities recovers the original text, so escaping loses nothing |
| HtmlEscape.EscapeInjective | js/common/layout-manager.js:344-348 | different texts always escape differently |
| BasicMarkdown.Lines | js/basic-article/script.js:234 | one entry per `\n`-separated line, each trimmed |
| BasicMarkdown.CardImageMatchesPattern | js/basic-article/script.js:251 | the leftmost search for `![`, then `][image`, then `]` decides `/!\[.*\]\[image.*\]/` exactly |
| BasicMarkdown.AnchorTag | js/basic-article/script.js:342-348 | the href captured from an `<a ... href="...">` tag never contains `"` |
| BasicMarkdown.ImageMarkdown | js/basic-article/script.js:351 | a match reads `![alt](url)` off the line's start with the lazy groups: the alt runs to the first `](` and the url holds no `)`; no match means no `)` after any `](` |
| BasicMarkdown.LinkMarkdown | js/basic-article/script.js:364 | a link match starts with `[` or `\[` and its href holds no `)` |
| BasicMarkdown.ImageUrl | js/basic-article/script.js:355-357 | an image url is kept exactly when it ends in .jpg/.jpeg/.png/.webp, otherwise replaced by the fallback picture, so the result always has a kept extension or is the fallback |
| BasicMarkdown.Inline | js/basic-article/script.js:341-389 | a line is an A, an IMAGE or a P; a P exactly when no tag, image or link rule matches, holding the line with ordinal escapes undone; an A has HREF and TEXT; an IMAGE has ALT and a kept or fallback URL |
| BasicMarkdown.BulletRunEnd | js/basic-article/script.js:299-303 | the UL capture takes the maximal run of lines matching `/^[*-]\s+/` |
| BasicMarkdown.OrdinalRunEnd | js/basic-article/script.js:314-316 | the OL pre-scan counts the maximal run of lines matching `/^\d+\.\s/` |
| BasicMarkdown.TableRunEnd | js/basic-article/script.js:332-335 | the TABLE capture takes the maximal run of lines starting with `\|` |
| BasicMarkdown.Step | js/basic-article/script.js:237-390 | one turn of the parser loop never moves the cursor backwards nor past the end |
| BasicMarkdown.ParseFrom | js/basic-article/script.js:237-391 | when the loop spins, it spins at a line where a step leaves the cursor in place |
| BasicMarkdown.ParseMarkdown | js/basic-article/script.js:232-392 | the parser's loop produces exactly the blocks of the step-by-step specification, or diverges where it does |
| BasicMarkdown.ParseLines | js/basic-article/script.js:237-391 | the `for` loop over the trimmed lines, proved equal to the step specification |
| BasicMarkdown.ParseLine | js/basic-article/script.js:238-294 | the loop body at line i (comments, blank lines, card, bold heading, H1 to H4) pushes the step's blocks and leaves the cursor at the step's next line minus one |
| BasicMarkdown.ParseLineRest | js/basic-article/script.js:266-294 | the heading rules after the card rule, as one step |
| BasicMarkdown.ParseLineLists | js/basic-article/script.js:296-390 | the list, table, tag, image, link and paragraph rules, as one step |
| BasicMarkdown.StepAgrees | js/basic-article/script.js:237-391 | the loop invariant is kept by one turn: the blocks pushed so far followed by the step specification from the new cursor are the whole parse |
| BasicMarkdown.StepRest | js/basic-article/script.js:266-294 | the heading rules never move the cursor backwards nor past the end |
| BasicMarkdown.StepLists | js/basic-article/script.js:296-390 | the list, table and inline rules never move the cursor backwards nor past the end |
| BasicMarkdown.BulletItems | js/basic-article/script.js:299-303 | one UL item per collected line |
| BasicMarkdown.OrdinalItems | js/basic-article/script.js:318-321 | one OL item per collected ordinal line |
| BasicMarkdown.CaptureBullets | js/basic-article/script.js:298-304 | the UL capture collects the bullet run (bold removed) and steps back to its last line |
| BasicMarkdown.CaptureOrdinals | js/basic-article/script.js:318-322 | the OL capture collects the numbered run, numbers stripped, and steps back to its last line |
| BasicMarkdown.CaptureTable | js/basic-article/script.js:330-336 | the TABLE capture collects the `\|` lines verbatim and steps back to the last |
| BasicMarkdown.OrdinalRun | js/basic-article/script.js:312-316 | the pre-scan counts exactly the numbered run from i |
| BasicMarkdownProperties.NeverH4 | js/basic-article/script.js:284-294 | the `###` test precedes the `#### ` test, so the parser never produces an H4 block |
| BasicMarkdownProperties.FourHashesBecomeH3 | js/basic-article/script.js:284-288 | a line `#### x` becomes an H3 whose text is `# x` without bold markers |
| BasicMarkdownProperties.OrderedListNeedsTwo | js/basic-article/script.js:309-326 | a numbered line makes an OL only when at least two consecutive lines are numbered, and the OL takes exactly that run; a lone numbered line falls through to the inline rules |
| BasicMarkdownProperties.OrdinalItemsStripNumbers | js/basic-article/script.js:319 | each OL item is its line after the digits, the dot and one white-space character |
| BasicMarkdownProperties.ImagesHaveKeptUrls | js/basic-article/script.js:351-384 | every IMAGE block's URL ends in a kept extension or is the fallback picture |
| BasicMarkdownProperties.GifNotKept | js/basic-article/script.js:376 | a `.gif` address is never kept |
| BasicMarkdownProperties.GifLinkGetsFallback | js/basic-article/script.js:364-384 | a markdown link to a `.gif` is taken as an image and gets the fallback url |
| BasicMarkdownProperties.CardConsumesLines | js/basic-article/script.js:251-263 | an image reference followed by `### ` is one card (URL the raw line, TITLE the heading, DESC the third line unless missing or a heading); the card takes three lines with a description and two without |
| BasicMarkdownProperties.StepProgress | js/basic-article/script.js:296-307 | a step leaves the cursor on the same line exactly at a stalled bullet line: one that starts with `*` or `-` but fails `/^[*-]\s+/` |
| BasicMarkdownProperties.DivergesOnlyAtBulletStall | js/basic-article/script.js:296-307 | the parse loops for ever only at a stalled bullet line |
| BasicMarkdownProperties.DashAloneDiverges | js/basic-article/script.js:297-304 | the input `-` makes the loop spin at line 0 |
| BasicMarkdownProperties.StarWordDiverges | js/basic-article/script.js:297-304 | so does `*x` |
| BasicMarkdownProperties.PlainLineIsParagraph | js/basic-article/script.js:388-389 | a line no tag, image or link rule matches becomes a P holding the line, only the backslash of `N\.` removed |
| BasicMarkdownProperties.ParagraphKeepsBold | js/basic-article/script.js:388-389 | paragraphs keep their `**` markers |
| BasicMarkdownProperties.SkippedLines | js/basic-article/script.js:239-247 | a `//` comment, a blank line or a `---` rule emits nothing and moves on one line |
| BasicLayouts.GetBlockEditorTemplate | js/basic-article/layouts.js:283-285 | `getBlockEditorTemplate` gives the type's template, and "" exactly for a type without one |
| BasicLayouts.FieldDefault | js/basic-article/layouts.js:20-154 | an input starts empty unless it is a select, which starts on one of its options: `h2` for H2_TAG, `h3` for the other tag selects, `image-left` for POSITION |
| BasicLayouts.GetLayoutDefinition | js/basic-article/layouts.js:682-684 | a layout is found exactly when registered, and its id is the key it was looked up with |
| BasicLayouts.RegistryIdsMatchKeys | js/basic-article/layouts.js:294-681 | every registry entry's `id` equals its key |
| BasicLayouts.DynamicItemBlockType | js/basic-article/layouts.js:493-498 | a group is a link item exactly when its first P block mentions `tel:`, `mailto:` or `http`; otherwise a text item |
| BasicLayouts.FirstP | js/basic-article/layouts.js:494 | `group.find(b => b.type === 'P')` finds the first P block, or none |
| BasicLayouts.GetFullBlockInfo | js/basic-article/script.js:68-74 | a block's insertable types are its own entry, else the `default` entry, else undefined |
| BasicLayoutFacts.RegistryKeys | js/basic-article/layouts.js:294-681 | the registry holds exactly article-01 to article-16 |
| BasicLayoutFacts.RegistryConfigs | js/basic-article/layouts.js:294-681 | every registered layout has a parsing config: article-01 to 03 atomic with the shared block mapping, the others grouped with an H1 title, items that are not header types, and header blocks first |
| BasicLayoutFacts.GroupedEndsWithList | js/basic-article/layouts.js:507-630 | every grouped layout but the company form and the table ends its item mapping with the UL rule into DESC |
| BasicLayoutFacts.CompanyFormConfig | js/basic-article/layouts.js:483-503 | the company form takes its name from the first H3, starts an item at each H4 and picks the item type per group |
| BasicHtmlParts.MarkerLength | js/basic-article/layout-manager.js:206 | a list marker is present exactly when the line starts with `*`, `-` or digits and a dot |
| BasicHtmlParts.StripListMarker | js/basic-article/layout-manager.js:206 | the marker and the white space after it are cut from the front; a line without a marker is unchanged |
| BasicHtmlParts.ListItems | js/basic-article/layout-manager.js:204-207 | one item per non-blank line, trimmed and stripped of its marker |
| BasicHtmlParts.ListHtml | js/basic-article/layout-manager.js:202-213 | a blank field renders as nothing; otherwise the list holds one escaped `<li>` per non-blank line, in order |
| BasicHtmlParts.ComplexDescription | js/basic-article/layout-manager.js:215-248 | an empty description is the placeholder; otherwise the rendering of its non-blank trimmed lines grouped into bullet runs and paragraphs |
| BasicHtmlParts.ComplexDescriptionHtml | js/basic-article/layout-manager.js:215-248 | the loop with its `inList` flag computes that rendering |
| BasicHtmlParts.AppendDescLine | js/basic-article/layout-manager.js:224-243 | one pass of the loop body appends what the rest of the description needs |
| BasicHtmlParts.Group | js/basic-article/layout-manager.js:224-243 | the grouping is well formed: pieces are non-empty and no two bullet runs touch |
| BasicHtmlParts.GroupFlattens | js/basic-article/layout-manager.js:224-243 | grouping keeps every line, in order |
| BasicHtmlParts.GroupHead | js/basic-article/layout-manager.js:226 | the first piece is a bullet run exactly when the first line is a bullet |
| BasicHtmlParts.DescGrouped | js/basic-article/layout-manager.js:222-246 | the loop writes each maximal run of bullet lines as one `<ul>` and every other line as one `<p>` |
| BasicHtmlParts.BlankDescriptionEmpty | js/basic-article/layout-manager.js:216-222 | a non-empty description of white space only renders as nothing, not as the placeholder |
| BasicHtmlParts.PipeLineTrimmed | js/basic-article/layout-manager.js:253 | the table-line test is "the trimmed line starts with `\|`" |
| BasicHtmlParts.PipeLines | js/basic-article/layout-manager.js:253 | the kept lines are exactly the table lines, each once, in order |
| BasicHtmlParts.PipeLinesAll | js/basic-article/layout-manager.js:253 | a field made only of table lines loses none |
| BasicHtmlParts.RowCells | js/basic-article/layout-manager.js:262 | cells are stripped of bold markers |
| BasicHtmlParts.ParseTable | js/basic-article/layout-manager.js:250-271 | a blank field is empty; without a delimiter as second line the table is incomplete; otherwise the rows are every table line but the delimiter, in order |
| BasicHtmlParts.RowsHtml | js/basic-article/layout-manager.js:260-264 | one rendered row per table row |
| BasicHtmlParts.TableHtml | js/basic-article/layout-manager.js:250-271 | the empty-table comment exactly for a blank field; the incomplete-table comment exactly for a non-blank field whose table lines are fewer than two or whose second is not a delimiter row; otherwise the wrapped rows |
| BasicHtmlParts.TableWrapNotComment | js/basic-article/layout-manager.js:260-270 | a wrapped table is never one of the two comments |
| BasicHtmlParts.BlankNoPipeLines | js/basic-article/layout-manager.js:251-253 | a blank field has no table line |
| BasicHtmlParts.IndentedDelimiterRejected | js/basic-article/layout-manager.js:254-256 | a delimiter line indented before its `\|` is never taken as the delimiter |
| BasicHtmlParts.TitleHtml | js/basic-article/layout-manager.js:273-293 | the section title is empty exactly when both the main title and the subtitle are blank |
| BasicHtmlParts.FindKind | js/basic-article/layout-manager.js:296 | `find` gives the first block of the type, or none |
| BasicHtmlParts.ExtractTitleAbsent | js/basic-article/layout-manager.js:295-305 | the section title is absent exactly when there is no MAIN_TEXT block, or each of its titles is removed or blank |
| BasicPopulate.NewBlock | js/basic-article/ui-manager.js:184-195 | a created block has one input per field of its editor and none removed; an input the initial data names holds that value, any other its template default |
| BasicPopulate.DataOf | js/basic-article/ui-manager.js:276-285 | a block's data has one trimmed value per input, and an input is flagged removed exactly when it is marked so |
| BasicPopulate.FreshInputReadsDefault | js/basic-article/ui-manager.js:191-195 | an input the initial data does not name reads back as its template default, which is "" exactly when the input is not a select |
| BasicPopulate.SetField | js/basic-article/script.js:845-850 | writing an input changes that input only, and nothing when the block lacks it |
| BasicPopulate.FirstOfKind | js/basic-article/script.js:627 | `find` gives the first block of the type, or none |
| BasicPopulate.RemainingDropsFirstTitles | js/basic-article/script.js:627-630 | the first block of each title type, when there is one, is removed and nothing else is |
| BasicPopulate.RemainingKeepsOthers | js/basic-article/script.js:627-630 | only the first block of each title type leaves: every other block stays, in order, and the result is one block shorter per title found |
| BasicPopulate.CountPositive | js/basic-article/script.js:627 | a type occurs exactly when `find` finds a block of it |
| BasicPopulate.GroupItems | js/basic-article/script.js:620-643 | the groups put back together are the remaining blocks; each group is non-empty with an identifier type only at its head; there is one group per identifier after the first block, plus one |
| BasicPopulate.BuildContentMap | js/basic-article/script.js:706-713 | the reduce builds the group's content map |
| BasicPopulate.ContentMapKeys | js/basic-article/script.js:706-713 | a type has an entry exactly when some block of the group has it |
| BasicPopulate.ContentMapJoinsText | js/basic-article/script.js:707-708 | repeated non-empty P (or UL) texts are joined in order with a blank line between them |
| BasicPopulate.ContentMapKeepsLast | js/basic-article/script.js:709-710 | any other repeated type keeps the content of its last block |
| BasicPopulate.FillUiBlock | js/basic-article/script.js:838-872 | filling keeps the block's type, its removed flags and its set of inputs |
| BasicPopulate.ApplyRule | js/basic-article/script.js:842-870 | one mapping entry keeps the block's type, its removed flags and its set of inputs |
| BasicPopulate.CopyFields | js/basic-article/script.js:858-869 | an object rule's sub-field copies keep the block's type, removed flags and set of inputs |
| BasicPopulate.CopyOne | js/basic-article/script.js:859-868 | one sub-field copy keeps the block's type, removed flags and set of inputs |
| BasicPopulate.FillNeverClears | js/basic-article/script.js:838-872 | `_fillUiBlock` never clears a field: each value stays or becomes non-empty content |
| BasicPopulate.FillSkipsAbsent | js/basic-article/script.js:842-843 | mapping entries whose type is absent from the content map change nothing |
| BasicPopulate.FillLaterRuleWins | js/basic-article/script.js:844-851 | a string rule applied last decides its field when the content is truthy and the input exists |
| BasicPopulate.CopyFieldsCopies | js/basic-article/script.js:852-866 | an object rule copies each non-empty sub-field to its upper-cased target input |
| BasicPopulate.CopyFieldsUntargeted | js/basic-article/script.js:852-866 | an object rule changes no input outside its upper-cased targets |
| BasicPopulate.FillKeepsUntargeted | js/basic-article/script.js:838-872 | `_fillUiBlock` changes no input that no mapping entry targets |
| BasicCompany.HeadingTitle | js/basic-article/script.js:887-897 | the heading pattern matches exactly when the line starts with the hashes and something follows them |
| BasicCompany.HeadingTitleTrimmed | js/basic-article/script.js:887-897 | a heading title carries no surrounding white space |
| BasicCompany.BoldHeadingTitle | js/basic-article/script.js:887-897 | `#### **t**` has title t |
| BasicCompany.StarsOnlyHeadingTitle | js/basic-article/script.js:887-897 | a heading of hashes and stars only has the title `*` |
| BasicCompany.NameFrom | js/basic-article/script.js:881-890 | the company name is the default when no line matches the three-hash pattern, else the name the first matching line gives |
| BasicCompany.BareHeadingNamesFromNextLine | js/basic-article/script.js:887 | a bare `###` line takes the company name from the next line |
| BasicCompany.SpaceHeadingNamesFromNextLine | js/basic-article/script.js:887 | `### ` with only a space after the hashes also takes the next line, even an item heading |
| BasicCompany.EarlierItemHeadingNamesCompany | js/basic-article/script.js:887-890 | a `####` line before the `###` line names the company, with its fourth hash kept |
| BasicCompany.Classify | js/basic-article/script.js:895-910 | a line is an item heading exactly when it starts with `####` and something follows; other lines are trimmed and flagged when they start with `###` |
| BasicCompany.ScanItems | js/basic-article/script.js:893-912 | the scan over the non-blank lines produces the items of the specification |
| BasicCompany.ItemsOf | js/basic-article/script.js:893-912 | there is exactly one item per item heading with a non-empty title, in heading order |
| BasicCompany.BodyLines | js/basic-article/script.js:905-909 | an item's lines are texts of lines under its heading, none of them a heading or a `###` line |
| BasicCompany.ItemBlock | js/basic-article/script.js:925-940 | an item block is a link item exactly when a line mentions `tel:` or `mailto:` |
| BasicCompany.CompanyBlocks | js/basic-article/script.js:915-952 | the rebuilt editor is the name block followed by one block per item, in order |
| BasicCompany.BuildCompanyBlocks | js/basic-article/script.js:915-952 | the rebuild loop creates those blocks in that order |
| BasicCompany.CompanyEditorFields | js/basic-article/layouts.js:283-285 | the name block has one input and the item blocks have LABEL and TEXT |
| BasicCompany.CompanyBlocksShowItems | js/basic-article/script.js:920-950 | the name block shows the name; an item block shows the title as LABEL and the lines joined by newlines as TEXT |
| BasicCompany.LinkTestsDisagreeOnHttp | js/basic-article/script.js:925-930 | the form's link test and the layout's grouped classifier disagree on `http` |
| BasicSlots.ItemPos | js/basic-article/script.js:669-674 | the r-th item slot of the filtered list is an item block, at a position no smaller than r |
| BasicSlots.ItemPosItem | js/basic-article/script.js:669-674 | the block at the r-th slot's position is the r-th entry of the filtered slot list |
| BasicSlots.ItemPosRank | js/basic-article/script.js:669-674 | exactly r slots come before the r-th slot |
| BasicSlots.RankPos | js/basic-article/script.js:669-674 | every item block is the slot of its own rank, so the filter numbers the slots one to one |
| BasicSlots.SlotRankItems | js/basic-article/script.js:669-674 | the rank of a position counts the item blocks before it |
| BasicSlots.SlotRankMono | js/basic-article/script.js:669-674 | ranks never decrease along the container, and an item block raises the rank of everything after it |
| BasicSlots.NoSlotBetween | js/basic-article/script.js:669-674 | between slot r and slot r + 1 there are only header blocks |
| BasicSlots.FrontRank | js/basic-article/script.js:669-674 | when the first k blocks are slots, they are slots 0 to k - 1 and no header comes before them |
| BasicSlots.FilledStep | js/basic-article/script.js:686-694 | placing group g in its slot's own place is an update at that position, which until then still held the original slot |
| BasicSlots.FilledBeyond | js/basic-article/script.js:696-701 | a group with no slot of its rank leaves every slot as it was |
| BasicSlots.FilledUnchangedFrom | js/basic-article/script.js:681-720 | while the groups below g are placed, the slots of rank g and beyond and everything after them are untouched |
| BasicSlots.ItemsOfFilled | js/basic-article/script.js:681-720 | in any stretch of filled slots the item blocks are the groups' blocks of those ranks, in order |
| BasicSlots.HeadersOfFilled | js/basic-article/script.js:681-720 | filling slots with item blocks leaves every header block where it was |
| BasicSlots.ArrangedHeaders | js/basic-article/script.js:666-727 | after steps 3 and 4 the header blocks are exactly those of the start, in order |
| BasicSlots.ArrangedItems | js/basic-article/script.js:666-727 | after steps 3 and 4 the item blocks are the groups' blocks: those placed in the slots' own places, then those of the moved front slots, then those appended beyond the slots |
| BasicSlots.StagedFill | js/basic-article/script.js:686-694 | group g's block goes in its slot's place, found at the slot's position in the start less the slots moved so far; the slot is still there |
| BasicSlots.StagedMove | js/basic-article/script.js:688-693 | when slot g is the first block, it leaves the front and group g's block goes after the blocks of the slots moved before it, at the end |
| BasicSlots.StagedAppend | js/basic-article/script.js:696-701 | a group with no slot appends its block after the last block |
| BasicSlots.StagedEnd | js/basic-article/script.js:723-727 | once every group is placed, the container is the filled slots, the untouched rest, the moved blocks and the appended blocks; removing the left-over slots gives the arrangement |
| BasicSlots.TrimBounds | js/basic-article/script.js:723-727 | left-over slot i lies between the cut and slot i + 1, after the headers kept so far |
| BasicSlots.TrimJoin | js/basic-article/script.js:723-727 | the headers up to slot i + 1 are those up to slot i followed by the blocks between the two slots |
| BasicSlots.TrimStateStep | js/basic-article/script.js:724-726 | one removal keeps the loop invariant: the block removed is slot i, at its position in the start less the moved blocks and the slots removed before it |
| BasicEditor.ItemTypeFor | js/basic-article/script.js:683-684 | under a registered config the group's type is a non-empty item type, never a header type |
| BasicEditor.ItemsAfter | js/basic-article/script.js:681-720 | after the grouped path there is one item block per group, of the group's type |
| BasicEditor.SlotFor | js/basic-article/script.js:686-701 | a slot of the group's type is reused as it is; otherwise the block is fresh: the type's inputs holding their template defaults, none removed |
| BasicEditor.ItemsAfterFreshBlocks | js/basic-article/script.js:686-701 | a group without a usable slot gets a fresh block: none removed, the type's inputs, an input no entry targets at its template default, any other at its default or non-empty content |
| BasicEditor.ItemsAfterReusesSlots | js/basic-article/script.js:686-703 | a slot of the right type is reused: it keeps its removed flags and inputs, and a field no entry fills keeps its value |
| BasicEditor.FrontMoves | js/basic-article/script.js:688-693 | the slots moved to the end are a leading run of item blocks, never more than there are groups |
| BasicEditor.WantAreItems | js/basic-article/script.js:683-701 | under a registered config every block the groups fill is an item block |
| BasicEditor.GroupedBlocksHeaders | js/basic-article/script.js:666-727 | the grouped path keeps every header block, in order |
| BasicEditor.GroupedBlocksItems | js/basic-article/script.js:681-727 | the item blocks afterwards are the groups' blocks: in the slots' own places in group order, then those of the moved front slots, then those appended |
| BasicEditor.GroupedBlocksInOrder | js/basic-article/script.js:681-727 | with no slot moved, the item blocks afterwards are exactly the groups' blocks in group order |
| BasicEditor.NoFrontMoveAfterHeader | js/basic-article/script.js:688-693 | a container that starts with a header block, or with a slot of the fixed item type, moves no slot |
| BasicEditor.FrontSlotLandsLast | js/basic-article/ui-manager.js:199-208 | a wrong-typed slot that is the first block has no previous sibling, so its replacement is appended and lands after the header that followed it |
| BasicEditor.WantAtSlot | js/basic-article/script.js:686-694 | group g fills its slot when the types agree, otherwise a fresh block of the group's type |
| BasicEditor.MovedAfterSlot | js/basic-article/script.js:688-693 | slot g moves to the end exactly when it has the wrong type and is the first block left; otherwise the count of moved slots stays |
| BasicEditor.MovedAfterAppend | js/basic-article/script.js:696-701 | a group with no slot moves no slot |
| BasicEditor.RegisteredDescFromList | js/basic-article/layouts.js:507-630 | in every grouped layout that maps lists, a group with a UL ends with the list text in DESC |
| BasicEditor.FirstWithField | js/basic-article/script.js:575 | `querySelector('[data-field=…]')` gives the first block with that input |
| BasicEditor.FirstOfType | js/basic-article/script.js:591 | `querySelector('[data-type=…]')` gives the first block of that type |
| BasicEditor.Flag | js/basic-article/script.js:585 | flagging a field marks it removed when the block has it, and nothing else changes |
| BasicEditor.Unflag | js/basic-article/script.js:578 | unflagging a field only clears its removed mark |
| BasicEditor.Retire | js/basic-article/script.js:583-587 | a retired field is cleared and flagged; other fields keep their values |
| BasicEditor.MainTitleTarget | js/basic-article/script.js:564-576 | the main-title target is an existing input of an existing block, or none |
| BasicEditor.GroupedTitles | js/basic-article/script.js:564-618 | the title step keeps the number and the types of the blocks |
| BasicEditor.GroupedMainTitle | js/basic-article/script.js:575-595 | writing the main title keeps the number of blocks and each block's type |
| BasicEditor.GroupedSubtitleStaysRemoved | js/basic-article/script.js:564-618 | with both titles present in one MAIN_TEXT block, H2 holds the title and H3 the subtitle, yet H3 stays flagged removed |
| BasicEditor.AtomicBlock | js/basic-article/script.js:520-545 | a created atomic block has the mapped type and no removed flags |
| BasicEditor.AtomicBlocksFollowMapping | js/basic-article/script.js:515-556 | one created block per mapped markdown block, in order, of the mapped type |
| BasicEditor.AtomicOrderedListIsObjectText | js/basic-article/script.js:530-535 | an OL's object content becomes the text "[object Object]" |
| BasicEditor.AtomicHeading4HasNoInput | js/basic-article/layouts.js:283-285 | an H4 block has no inputs, so the heading's text is dropped |
| BasicEditor.AtomicTitles | js/basic-article/script.js:414-512 | the atomic title steps keep the number and types of the blocks |
| BasicEditor.AtomicPopulated | js/basic-article/script.js:411-561 | the atomic path adds exactly the created blocks to the titled blocks |
| BasicEditor.AtomicInsertPoint | js/basic-article/script.js:513-522 | the created blocks go after the first MAIN_TEXT block when there is one, otherwise after the last block (-1 for an empty editor) |
| BasicEditor.AtomicMainTitle | js/basic-article/script.js:414-446 | the main-title step edits inputs in place: the editor keeps its number of blocks and each block its type |
| BasicEditor.AtomicSubtitle | js/basic-article/script.js:448-488 | the subtitle step edits inputs in place: the editor keeps its number of blocks and each block its type |
| BasicEditor.AtomicBlocks | js/basic-article/script.js:536-545 | at most one block is created per remaining markdown block (unmapped types are skipped) |
| BasicEditor.Editor.constructor | js/basic-article/script.js:49-57 | `handleLayoutChange` creates one block per initial block, in order, each as `Created` gives it |
| BasicEditor.Created | js/basic-article/ui-manager.js:184-195 | the block for an initial block has its type and its editor's inputs, none removed; each input holds its initial value, else its template default |
| BasicEditor.FreshSubtitleRendersH3 | js/basic-article/layout-manager.js:367-370 | an untouched subtitle tag select reads `h3`, so a non-empty subtitle renders in `<h3>` rather than the `h4` fallback |
| BasicEditor.Editor.Populate | js/basic-article/script.js:730-741 | an unknown layout changes nothing; an atomic layout gets the atomic blocks; a grouped layout's remaining blocks are grouped, the headers are the titled headers and the items are one per group |
| BasicEditor.Editor.PopulateCompanyForm | js/basic-article/script.js:879-953 | the editor is rebuilt from the company name and the items, in order |
| BasicEditor.Editor.PopulateGrouped | js/basic-article/script.js:564-728 | the titles, then the groups, then one item slot per group |
| BasicEditor.Editor.PopulateAtomic | js/basic-article/script.js:411-561 | the editor becomes the atomic specification of the old blocks |
| BasicEditor.Editor.FillItems | js/basic-article/script.js:666-727 | steps 3 and 4 turn the container into the grouped arrangement of the start (headers kept in order, items the groups' blocks) |
| BasicEditor.Editor.ReuseOrAppend | js/basic-article/script.js:681-720 | group by group the container follows the staged arrangement; it returns the number of front slots moved to the end |
| BasicEditor.Editor.TrimItems | js/basic-article/script.js:723-727 | exactly the slots from rank n on are removed; the header blocks among them stay, in order |
| BasicEditor.PlaceGroup | js/basic-article/script.js:681-703 | placing group g takes the container from the stage before g to the stage after g |
| BasicEditor.FillSlot | js/basic-article/script.js:686-694 | slot g is refilled in place, or replaced in place by a fresh block holding its template defaults; when the slot is the first block, the fresh block is appended at the end |
| BasicEditor.AppendSlot | js/basic-article/script.js:696-701 | with no slot g, a fresh block holding its template defaults is appended after the last block and filled |
| BasicEditor.InsertAtomic | js/basic-article/script.js:548-558 | the created blocks are inserted, in order, at the insertion point |
| BasicPreview.FirstInitial | js/basic-article/script.js:102 | `initialBlocks.find` gives the first initial block of the type |
| BasicPreview.MergePreview | js/basic-article/script.js:101-115 | a merged block keeps its type and removed fields, and a block without sample content is shown as read |
| BasicPreview.MergeFields | js/basic-article/script.js:104-110 | a non-empty editor value wins, otherwise the sample's value stands, and an empty editor value adds no field |
| BasicPreview.MergeIdempotent | js/basic-article/script.js:104-110 | merging again with the same sample changes nothing |
| BasicPreview.MergeOverFullBlock | js/basic-article/script.js:104-110 | a block whose non-empty values cover the sample is shown as it is, minus its empty fields |
| BasicPreview.MergeAll | js/basic-article/script.js:101-115 | the preview data is merged block by block, in editor order |
| BasicRender.BrEmpty | js/basic-article/layout-manager.js:171 | converting line breaks gives nothing exactly for nothing |
| BasicRender.BrText | js/basic-article/layout-manager.js:171 | the converted text is empty exactly when TEXT is missing or empty |
| BasicRender.IndependentBlockHtml | js/basic-article/layout-manager.js:169-189 | an unknown type gives the unknown-type comment; a block renders as nothing exactly when the field its case needs is empty |
| BasicRender.IndependentUnescaped | js/basic-article/layout-manager.js:174-176 | a one-line heading or paragraph reaches the page exactly as typed, unescaped |
| BasicRender.OtherMain | js/basic-article/layout-manager.js:65-79 | a main block looks for the other main kind |
| BasicRender.FindFrom | js/basic-article/layout-manager.js:70-77 | the look-ahead finds the first block of the kind at or after the start, or none |
| BasicRender.Partner | js/basic-article/layout-manager.js:65-79 | a main block's partner is the first later block of the other main kind, or none |
| BasicRender.NextCursor | js/basic-article/layout-manager.js:156-163 | the scan always moves forward |
| BasicRender.PairImage | js/basic-article/layout-manager.js:101-110 | the image of a pair is absent exactly when its URL is flagged removed |
| BasicRender.TitleBox | js/basic-article/layout-manager.js:114-131 | the title div goes only when both titles are removed; each removed title loses its line |
| BasicRender.DescriptionBox | js/basic-article/layout-manager.js:132-137 | the description line goes exactly when P is flagged removed |
| BasicRender.PairHtml | js/basic-article/layout-manager.js:87-99 | a pair is eight pieces; the text box comes first except in article-03, where the image box does |
| BasicRender.SegmentsTile | js/basic-article/layout-manager.js:47-167 | every block is consumed by exactly one step of the scan, in order |
| BasicRender.NoMainsIndependent | js/basic-article/layout-manager.js:156-163 | without main blocks every block is rendered on its own, in order |
| BasicRender.UnpairedMain | js/basic-article/layout-manager.js:161-163 | a main block without a partner is rendered on its own and the scan resumes at the next block |
| BasicRender.PairedMain | js/basic-article/layout-manager.js:80-156 | a main block with a partner gives the pair's pieces and the scan resumes after the partner |
| BasicRender.FindPartner | js/basic-article/layout-manager.js:65-79 | the look-ahead finds the partner exactly when there is one, and collects the blocks in between |
| BasicRender.ScanBlocks | js/basic-article/layout-manager.js:54-164 | the scan loop pushes exactly the pieces of the specification |
| BasicRender.DefaultSeoBlogHtml | js/basic-article/layout-manager.js:47-167 | the SEO blog output is the scan's pieces joined, styled with the layout id |
| BasicRender.SeoBlog | js/basic-article/layout-manager.js:164-166 | the SEO blog output always carries the layout id as its style |
| BasicGenerators.OfKind | js/basic-article/layout-manager.js:352 | `filter` keeps exactly the blocks of the type, each once, in order |
| BasicGenerators.RowsOr | js/basic-article/layout-manager.js:388-392 | no rows give the layout's comment, otherwise the rows joined |
| BasicGenerators.JoinNonEmpty | js/basic-article/layout-manager.js:388 | joined non-empty rows are empty only when there are none |
| BasicGenerators.RowNumbersDistinct | js/basic-article/layout-manager.js:356 | different positions show different numbers |
| BasicGenerators.Part | js/basic-article/layout-manager.js:320-327 | a row part is left out exactly when its field is flagged removed |
| BasicGenerators.OptionalSubtitle | js/basic-article/layout-manager.js:368-370 | the subtitle appears exactly when SUBTITLE is non-empty |
| BasicGenerators.StickyRows | js/basic-article/layout-manager.js:352-387 | one row per STICKY_TEXT_ROW block |
| BasicGenerators.StickyRowsNumbered | js/basic-article/layout-manager.js:356-362 | each sticky row shows its 1-based position, zero-padded, whatever the block holds |
| BasicGenerators.QaParagraphUntagged | js/basic-article/layout-manager.js:405 | in a QA row a paragraph keeps its escaped text and loses only its `<p>` tags |
| BasicGenerators.IconTitleCardsWarning | js/basic-article/layout-manager.js:481-485 | article-13 is only the warning exactly when there is no card |
| BasicGenerators.NumberCards | js/basic-article/layout-manager.js:614-640 | one card per NUMBER_CARD block |
| BasicGenerators.NumberCardsNumbered | js/basic-article/layout-manager.js:618-624 | each number card shows its 1-based position, zero-padded |
| BasicGenerators.CompanyItems | js/basic-article/layout-manager.js:801 | exactly the company item blocks are kept, each once, in order |
| BasicGenerators.CompanyItem | js/basic-article/layout-manager.js:804-818 | each company item renders as a non-empty line opening with a tag |
| BasicGenerators.CompanyInfoHtml | js/basic-article/layout-manager.js:782-829 | the generator fails exactly where the source throws: a PRE_GENERATED block without `companyInfoList` |
| BasicGenerators.CompanyInfoList | js/basic-article/layout-manager.js:822 | the fallback comment appears exactly when there is no company item |
| BasicGenerators.TableLayoutComments | js/basic-article/layout-manager.js:831-871 | article-16: an empty field asks for input; a non-empty one is the error comment exactly when it has no delimiter as second table line |
| BasicGenerators.WrapNotComment | js/basic-article/layout-manager.js:845-856 | a rendered table is never the error comment |
| BasicGenerators.Render | js/basic-article/layout-manager.js:20-32 | only the company-info generator can throw |
| BasicGenerators.DispatchOutcome | js/basic-article/layout-manager.js:15-45 | an unregistered layout gives the error pair; a registered one is styled with its id, except where article-15 throws; article-01 to 03 take the SEO blog path |
| BasicGenerators.DispatchContent | js/basic-article/layout-manager.js:15-45 | `generateContentHTML` with the SEO blog scan run as a loop equals the specification |
| BasicDispatch.GeneratorOf | js/basic-article/layout-manager.js:20-32 | only article-15 maps to the company-info generator |
| BasicDispatch.SeoLayoutsUndedicated | js/basic-article/layout-manager.js:20-35 | article-01 to 03 have no dedicated generator |
| BasicDispatch.DedicatedLayoutsRegistered | js/basic-article/layout-manager.js:20-32 | every layout with a dedicated generator is registered |
| BasicDispatch.RegisteredLayoutsDedicated | js/basic-article/layout-manager.js:20-32 | every registered layout other than article-01 to 03 has a dedicated generator |
| BasicDispatch.SeoRegistered | js/basic-article/layouts.js:294-681 | the SEO blog layouts are registered |
| WorldArticle.OrdinalPrefix | js/world-article/script.js:290 | `/^\d+\\?\. /` matches a prefix of digits, an optional backslash, a dot and a space |
| WorldArticle.LastIndexOfChar | js/world-article/script.js:177 | the last occurrence of a character, or -1 |
| WorldArticle.GreedyClose | js/world-article/script.js:297 | the greedy first group ends at the last `](` that still has a `)` after it |
| WorldArticle.GreedyGroups | js/world-article/script.js:297-307 | the pattern matches exactly when some `](` has a `)` after it; the first group then ends at the last such `](` and the second at the last `)` |
| WorldArticle.RemoveBackslashes | js/world-article/script.js:304 | no backslash survives |
| WorldArticle.BulletRunEnd | js/world-article/script.js:285-288 | the UL capture takes the maximal run of `/^[*-]\s/` lines |
| WorldArticle.OrdinalRunEnd | js/world-article/script.js:292-295 | the OL capture takes the maximal run of numbered lines |
| WorldArticle.TableRunEnd | js/world-article/script.js:332-335 | the TABLE capture takes the maximal run of `\|…\|` lines |
| WorldArticle.Step | js/world-article/script.js:265-357 | one turn of the loop never moves the cursor backwards nor past the end |
| WorldArticle.ParseFrom | js/world-article/script.js:264-359 | when the loop spins, it spins at a line where a step leaves the cursor in place |
| WorldArticle.Lines | js/world-article/script.js:262-266 | the lines, each trimmed |
| WorldArticle.ParseMarkdown | js/world-article/script.js:261-360 | the `while` loop produces exactly the blocks of the step specification, or diverges where it does |
| WorldArticle.ParseLines | js/world-article/script.js:265-358 | the loop over the trimmed lines, proved equal to the step specification |
| WorldArticle.ParseLine | js/world-article/script.js:266-296 | one turn at cursor i: comments, headings and lists |
| WorldArticle.ParseInline | js/world-article/script.js:297-357 | one turn at cursor i: image, link, rule, table, QA, paragraph |
| WorldArticle.StepInline | js/world-article/script.js:297-357 | the rules after the lists never move the cursor backwards nor past the end |
| WorldArticle.BulletItems | js/world-article/script.js:283-289 | one UL item per collected line |
| WorldArticle.OrdinalItems | js/world-article/script.js:290-296 | one OL item per collected ordinal line |
| WorldArticle.CaptureBullets | js/world-article/script.js:284-288 | the UL capture collects the bullet run, markers and bold removed |
| WorldArticle.CaptureOrdinals | js/world-article/script.js:291-295 | the OL capture collects the numbered run, numbers and bold removed |
| WorldArticle.CaptureTable | js/world-article/script.js:330-335 | the TABLE capture collects the table run verbatim |
| WorldArticle.KeepContentLines | js/world-article/script.js:160-162 | the kept anchor lines are exactly the trimmed lines that are neither blank nor `//` comments, in order |
| WorldArticle.LinkPrefix | js/world-article/script.js:165 | `[text](href)` is read off the front with lazy groups |
| WorldArticle.FirstNumberDot | js/world-article/script.js:172 | the leftmost digit run followed by a dot |
| WorldArticle.KeepParsed | js/world-article/script.js:163-189 | the parsed blocks are exactly the lines that parse as anchors, in order |
| WorldArticle.ParseAnchors | js/world-article/script.js:160-189 | each parsed block is an anchor item, and they are the blocks of the kept lines that parse, in order |
| WorldArticle.SectionEnd | js/world-article/script.js:200-207 | the anchor section ends at the next section opener |
| WorldArticle.FirstOfKind | js/world-article/script.js:209 | the first block of a type, or none |
| WorldArticle.DropAnchorItems | js/world-article/script.js:207 | exactly the blocks that are not anchor items stay, in order |
| WorldArticle.ReplaceAnchorItems | js/world-article/script.js:206-214 | no parsed items or no anchor list changes nothing; otherwise the blocks before the section stay, the parsed items follow the list, the section's other blocks keep their order after them, and the blocks after the section stay |
| WorldArticle.GetFullBlockInfo | js/world-article/script.js:73-82 | a block's insertable types are its own entry, else the default entry, else undefined |
| WorldArticleProperties.StepProgress | js/world-article/script.js:338-349 | a step leaves the cursor where it was exactly at a QA stall |
| WorldArticleProperties.DivergesOnlyAtQa | js/world-article/script.js:338-349 | the parse loops for ever only at a QA stall |
| WorldArticleProperties.TitleBeforeRuleStalls | js/world-article/script.js:338-349 | a `# ` line followed by a rule line pushes an empty QA block and leaves the cursor where it was |
| WorldArticleProperties.QaDiverges | js/world-article/script.js:338-349 | `# Q` then `---` makes the loop spin at line 0 |
| WorldArticleProperties.TitleWithoutRuleIsParagraph | js/world-article/script.js:350-354 | a `# ` line not followed by a rule line is a paragraph |
| WorldArticleProperties.SkippedLines | js/world-article/script.js:268-357 | a `//` comment, or a blank line which falls through to the last `else`, emits nothing and moves on one line |
| WorldArticleProperties.SingleNumberedLineIsList | js/world-article/script.js:290-296 | a single numbered line is already an ordered list |
| WorldArticleProperties.HeadingsHaveNoBold | js/world-article/script.js:274-282 | headings never keep bold markers |
| WorldArticleProperties.ImagesAreClean | js/world-article/script.js:297-325 | every image's alt holds no backslash, and its address is the fallback or has an accepted extension |
| WorldArticleProperties.LinkLineParses | js/world-article/script.js:165-168 | a `[text](href)` line gives that anchor item |
| WorldArticleProperties.SplitAtLastComma | js/world-article/script.js:173-181 | popping the last piece of a comma split and re-joining the rest is cutting at the last comma |
| WorldArticleProperties.CommaFormAtLastComma | js/world-article/script.js:172-187 | a line that is not a markdown link is read by cutting its cleaned form at the last comma into text and href |
| WorldArticleProperties.CommaItemAtLastComma | js/world-article/script.js:173-185 | the split-pop-join reading equals the last-comma reading |
| WorldArticleProperties.ReplacedShape | js/world-article/script.js:200-214 | after replacement the anchor list is still first and its section holds the new items followed by the kept blocks |
| WorldArticleProperties.ReplaceIdempotent | js/world-article/script.js:207-214 | replacing the items by the same items twice is replacing them once |
| WorldArticleProperties.ApplyIdempotent | js/world-article/script.js:149-217 | applying the same anchor markdown twice is applying it once |
| WorldArticle.ApplyAnchorMarkdown | js/world-article/script.js:149-194 | blank input, or input no line of which parses, leaves the blocks unchanged |
| WorldArticleProperties.InsertableInTextOverImage | js/common/layouts.js:143-144 | an anchor item accepts only anchor items; a type without its own entry gets the default list |
| CommonLayouts.GetBlockEditorTemplate | js/common/layouts.js:87-89 | the template, or "" exactly for a type without one |
| CommonLayouts.GetLayoutDefinition | js/common/layouts.js:154-156 | only `text-over-image` is registered |
| CommonLayouts.InitialBlocksShape | js/common/layouts.js:119-133 | the initial blocks are the quote section, the anchor list with two items, the main section and the call to action; exactly the non-openers are removable |
| CommonLayouts.DefaultInsertableHasNoOpeners | js/common/layouts.js:91-106 | the default insert list offers no section opener |
| CommonLayouts.InsertableBlocksShape | js/common/layouts.js:141-146 | inside an anchor list only anchor items can be inserted, and no insert list offers a section opener |
| CommonRender.MergeCta | js/common/layout-manager.js:36-40 | each `ctaConfig` field is the caller's when given, even empty, and the default otherwise |
| CommonRender.MergeConfig | js/common/layout-manager.js:36-40 | the caller's prefix wins when given; `ctaConfig` merges field by field |
| CommonRender.MergeNothing | js/common/layout-manager.js:16 | no config gives the defaults |
| CommonRender.MergeIdempotent | js/common/layout-manager.js:36-40 | feeding the merged configuration back in changes nothing |
| CommonRender.MergeOneKey | js/common/layout-manager.js:38-39 | setting one `ctaConfig` key changes that field and no other |
| CommonRender.EscapeNoNewline | js/common/layout-manager.js:344-348 | escaping adds no line break |
| CommonRender.NoNewlineNoBr | js/common/layout-manager.js:173 | text without line breaks gets no `<br>` |
| CommonRender.EscapedLineSafe | js/common/layout-manager.js:173-183 | one-line text reaches the page escaped, with no `< > " '` |
| CommonRender.SectionId | js/common/layout-manager.js:179 | a heading id is `section-` followed by at least two digits that denote the counter |
| CommonRender.SectionIdsDistinct | js/common/layout-manager.js:179 | different counters give different heading ids |
| CommonRender.H2Html | js/common/layout-manager.js:178-180 | an H2 carries its `section-` id in the id attribute and its escaped text, or the default heading, right after it |
| CommonRender.H4Html | js/common/layout-manager.js:182 | an H4 appears exactly when it has text |
| CommonRender.LinkHtml | js/common/layout-manager.js:187-189 | an A block appears exactly when it has both a href and a text |
| CommonRender.BlockquoteHtml | js/common/layout-manager.js:206-210 | the empty comment appears exactly when the text is empty |
| CommonRender.ImageHtml | js/common/layout-manager.js:213-215 | an IMAGE appears exactly when it has a URL |
| CommonRender.AnchorItemFields | js/common/layout-manager.js:174-177 | the anchor href is written verbatim and the anchor text escaped, each at its place |
| CommonRender.AnchorItemDefaults | js/common/layout-manager.js:175-176 | an item without text or href points at its own section |
| CommonRender.LinkFields | js/common/layout-manager.js:187-189 | the link's href is verbatim and its text escaped |
| CommonRender.ImageFields | js/common/layout-manager.js:213-215 | the image URL is escaped |
| CommonRender.VideoHtml | js/common/layout-manager.js:224-233 | the video `src` is written verbatim, right after the opening of the iframe |
| CommonRender.StripBullet | js/common/layout-manager.js:356 | a trimmed item starting with `*` or `-` loses that marker and the white space after it, and what is left is a suffix that does not start with white space; any other item is unchanged |
| CommonRender.ListItemLines | js/common/layout-manager.js:352-358 | one `<li>` per non-blank line, in order |
| CommonRender.ListHtml | js/common/layout-manager.js:350-361 | a blank field gives nothing, otherwise the list of its lines in the list type's class |
| CommonRender.RunEnd | js/common/layout-manager.js:270 | a run of characters from a set, taken greedily |
| CommonRender.SeparatorRowMatches | js/common/layout-manager.js:270 | the greedy test accepts exactly the lines `/^\| *[-:]+ *\|/` matches |
| CommonRender.ParseTable | js/common/layout-manager.js:263-281 | blank, too short and missing separator are told apart exactly; otherwise the rows are the non-blank lines without the separator |
| CommonRender.TableRowLines | js/common/layout-manager.js:277-281 | one `<tr>` per row |
| CommonRender.OnNewLine | js/common/layout-manager.js:283 | the table template starts on a new line |
| CommonRender.TableHtml | js/common/layout-manager.js:263-295 | each of the three comments appears exactly in its own case: a blank field, fewer than two non-blank lines, a second line that is not a separator row |
| CommonRender.SplitParagraphs | js/common/layout-manager.js:244 | `split(/\n{2,}/)` gives at least one piece |
| CommonRender.SplitParagraphsPieces | js/common/layout-manager.js:244 | no piece holds two consecutive line breaks; text without them is one piece |
| CommonRender.FirstPieceStart | js/common/layout-manager.js:244 | a non-empty first piece starts where the text starts |
| CommonRender.QaItemHtml | js/common/layout-manager.js:245-248 | the question appears escaped and the answer verbatim, each at its place |
| CommonRender.QaTitle | js/common/layout-manager.js:240 | `TITLE ?? default`: the default only for a missing title, never for an empty one |
| CommonRender.QaMarkdown | js/common/layout-manager.js:241 | `MARKDOWN ?? default`, likewise |
| CommonRender.QaItems | js/common/layout-manager.js:243-250 | a blank text gives no item; otherwise one item per paragraph of the trimmed text |
| CommonRender.QaBlockHtml | js/common/layout-manager.js:235-261 | the QA section shows its escaped title right after the opening heading tag |
| CommonRender.CtaValues | js/common/layout-manager.js:303-314 | each value is the block's own when non-empty, otherwise the configuration's |
| CommonRender.CtaEmptyBlock | js/common/layout-manager.js:303-314 | a CTA block with no fields shows the configuration |
| CommonRender.CtaHtml | js/common/layout-manager.js:297-330 | the CTA shows its escaped title, bold markers removed, in the title tag, and its button href verbatim in the button |
| CommonRender.CommaLines | js/common/layout-manager.js:194-196 | the survivors are exactly the trimmed lines holding a comma, in order |
| CommonRender.CommaLinesEmpty | js/common/layout-manager.js:194-196 | no line survives exactly when no trimmed line holds a comma |
| CommonRender.ReadingLineSplit | js/common/layout-manager.js:198-200 | a line is its text, a comma and its href, and the href holds no comma |
| CommonRender.ReadingLink | js/common/layout-manager.js:201 | each link is an `<a>` element holding the trimmed href verbatim and, after it, the trimmed text escaped |
| CommonRender.ReadingLinks | js/common/layout-manager.js:193-202 | one link per line holding a comma, in order |
| CommonRender.JoinedLinks | js/common/layout-manager.js:203-205 | joined links are empty only when there are none, and never look like the placeholder |
| CommonRender.ReadingBody | js/common/layout-manager.js:205 | the placeholder appears exactly when no line holds a comma |
| CommonRender.ExtendedReadingHtml | js/common/layout-manager.js:192-204 | the reading box holds the links, or the placeholder exactly when no line holds a comma, right after its heading |
| CommonRender.IndependentHtml | js/common/layout-manager.js:165-233 | a block of a type no case handles renders as the unknown-type comment |
| CommonScan.BodyEnd | js/common/layout-manager.js:70-86 | a section body runs to the next opener |
| CommonScan.AnchorEnd | js/common/layout-manager.js:93-98 | an anchor list takes the following run of anchor items |
| CommonScan.Next | js/common/layout-manager.js:60-162 | the cursor moves past the section body, the anchor run, or one block |
| CommonScan.TopStep | js/common/layout-manager.js:60-160 | one turn of the outer loop pushes one piece and never lowers the counter; outside the quote and main sections it adds one exactly for an H2 |
| CommonScan.Anchors | js/common/layout-manager.js:93-98 | the k-th item after the list is rendered with index k |
| CommonScan.AnchorsSnoc | js/common/layout-manager.js:93-98 | rendering one more item appends its line |
| CommonScan.Body | js/common/layout-manager.js:70-86 | one line per block of the body |
| CommonScan.RefBody | js/common/layout-manager.js:74-79 | each H2 of a body gets the number of H2 blocks up to it |
| CommonScan.BodyCounter | js/common/layout-manager.js:74-79 | through a body the running counter equals the number of H2 blocks seen so far |
| CommonScan.StepCounter | js/common/layout-manager.js:60-161 | a turn entered with the number of H2 blocks before the cursor pushes the positional piece and leaves the number of H2 blocks before the next cursor |
| CommonScan.ScanCounter | js/common/layout-manager.js:54-164 | `h2Counter` counts the H2 blocks before the cursor across sections |
| CommonScan.H2CountGrows | js/common/layout-manager.js:74-79 | a later H2 always gets a larger number |
| CommonScan.H2IdsDistinct | js/common/layout-manager.js:178-180 | two H2 blocks never share a heading id |
| CommonScan.Tops | js/common/layout-manager.js:58-162 | the outer loop's cursor positions lie inside the data |
| CommonScan.TopsTile | js/common/layout-manager.js:58-162 | one piece per cursor position, and consecutive sections follow each other to the end |
| CommonScan.Scan | js/common/layout-manager.js:54-163 | the scan pushes one piece per section opener position |
| CommonScan.RefScan | js/common/layout-manager.js:54-163 | the k-th piece is the section at the k-th cursor position rendered with its H2 numbers counted from the start |
| CommonScan.CoveredOnce | js/common/layout-manager.js:58-162 | every block lies in exactly one section |
| CommonScan.SectionsOrdered | js/common/layout-manager.js:58-162 | a section ends no later than any later section starts |
| CommonScan.TopsIncreasing | js/common/layout-manager.js:58-162 | cursor positions strictly increase |
| CommonScan.FindSection | js/common/layout-manager.js:58-162 | the section holding a position can be found |
| CommonScan.EmptyQuoteSection | js/common/layout-manager.js:65-87 | a quote section with nothing in it shows its placeholder |
| CommonScan.EmptyMainSection | js/common/layout-manager.js:129-148 | a main section with nothing in it shows its placeholder |
| CommonScan.EmptyAnchorList | js/common/layout-manager.js:89-127 | an anchor list without items shows its placeholder |
| CommonScan.CollectBody | js/common/layout-manager.js:70-86 | the inner loop stops at the next opener and computes the body |
| CommonScan.CollectAnchors | js/common/layout-manager.js:93-98 | the inner loop stops after the anchor run and renders it |
| CommonScan.SeoBlogStep | js/common/layout-manager.js:60-161 | one turn of the outer loop pushes the step's piece and moves to the next section |
| CommonScan.SeoBlogContent | js/common/layout-manager.js:54-162 | the outer loop pushes exactly the pieces of the specification |
| CommonScan.SeoBlog | js/common/layout-manager.js:54-164 | the output is the positional scan joined by line breaks, styled with the layout id |
| CommonScan.LayoutManager.constructor | js/common/layout-manager.js:10-14 | no configuration is stored at first |
| CommonScan.LayoutManager.GenerateContentHtml | js/common/layout-manager.js:16-52 | an unknown layout gives the error pair and keeps the configuration; otherwise the merged configuration is stored and the SEO blog is generated under it |
| CommonScan.LayoutManager.DefaultSeoBlogHtml | js/common/layout-manager.js:54-164 | the SEO blog under the stored configuration |

## Left out

- DOM, UI and browser I/O are not modelled: creating elements, event dispatch, `alert`, `console`, clipboard copy, the live preview, and `UIManager` itself. The editor is modelled as a sequence of records holding a type, input values and removed flags. `js/common/ui-manager.js` and `js/basic-article/ui-manager.js` are not part of this model.
- The rendered HTML is modelled as the string the source builds. The templates keep the source's indentation and line breaks (js/basic-article/layout-manager.js:307-871 and the common layout manager). What the browser later makes of that string is not modelled.
- JsString.ToUpper: upper-cases ASCII letters only and keeps the length. JavaScript's `toUpperCase()` also maps non-ASCII letters and can lengthen a string (`"ß"` becomes `"SS"`). The model applies it only to the parsing configs' ASCII field names (js/basic-article/script.js:845-860), where the two agree.
- Regex `.` is taken to match every character. The source's `.` does not match the line terminators `\r`, U+2028 and U+2029; lines are already split at `\n`.
- Every field value is a string. JavaScript's non-string values and explicit `undefined` values are not modelled. Extra `ctaConfig` keys beyond the six known ones are not modelled either.
- `_setOrderedData` and the common layout manager's `_generateComplexDescriptionHTML` and `_generateTitleHtml` are not modelled: nothing in the common layout manager calls them.
- The common `layoutGenerators` table is empty, so every registered world layout takes the SEO blog path. The model has no generator table there.
- `_populateDefaultSeoBlog` and the simple-layout branch of `_populateFromConfig` (js/basic-article/script.js:649-664) are not modelled. Every registered layout has a parsing config with an item mapping or atomic parsing, so neither is reached.
- Editor template HTML is reduced to each template's list of input fields. `BLOCK_DISPLAY_NAMES` and other labels are left out.
- The world editor's main-content Markdown handler and its layout-change handler (`handleParseMainContentMarkdown`, `handleLayoutChange`) are not modelled beyond the parser and the registry: they only move parsed blocks into DOM containers.
- BasicGenerators.TableLayoutWrap: no contract about its template text; only that a rendered table is never the error comment (WrapNotComment).
- BasicHtmlParts.TableWrap and CommonRender.TableWrap: no contract about their template text; BasicHtmlParts.TableWrapNotComment states only that a wrapped table is neither comment.
- BasicGenerators per-layout generators (AlternatingImageTextHtml, StickyTextListHtml, QaListHtml, ImageIconListHtml, IconTitleCardsHtml, ImageTitleDescHtml, OneColumnListHtml, NumberCardHtml, ThreeColumnCardHtml, IconCardHtml, TextCardHtml, TableLayoutHtml): their contracts are stated through the row lemmas above (numbering, warnings, removed parts, comments), not on each generator.
- CommonRender.IndependentHtml: the dispatcher states only the unknown-type case; what each type renders is stated on that type's renderer (escaping, defaults, empty cases), because the seventeen-way string dispatch is too costly for the solver with more clauses.
- CommonRender.QaBlockHtml: states where the title goes, not where the items go; the position of the items is stated through CommonRender.QaItems only.
- WorldArticle.ApplyAnchorMarkdown: states the no-op cases; where the parsed items land is stated on WorldArticle.ReplaceAnchorItems, which it calls.
