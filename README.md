# XML2RFC v2 renderer, modelled in Dafny

This project models `Xml2`, the XML2RFC version 2 output backend of the
markdown processor (`xml2rfcv2.go`). It is one object that the markdown parser
drives with a callback per document element, in document order. Each callback
appends markup to an output buffer. Some callbacks also update the object's
state:

- `sectionLevel`, the depth of the current heading;
- `docLevel`, which of front, middle or back matter is open;
- `ial`, the queue of inline attribute lists that the next block consumes;
- `titleBlock`, the TOML title block once it has been seen.

The model is the class `Renderer.Xml2`. Its fields are those of the Go struct,
with the flags reduced to a `standalone` boolean, plus two ghost counters,
`sectionsOpened` and `sectionsClosed`, that count the section tags written so
far. Four constant fields hold the helpers described below. Every callback is a method that appends to the
field `out` in the same writes as the source. Its postcondition ties the new
buffer and the new state to pure functions of the old state. Those functions
live in the modules below, and the properties the source promises are proved
about them:

- `Text`: options, repetition and concatenation of strings, an open/inner/close
  wrapping with its inverse `Unwrap`, and the decimal printing of `strconv.Itoa`
  with its parse-back.
- `Markup`: the enumerations that stand for the `DOC_*`, `LIST_TYPE_*`,
  `TABLE_ALIGNMENT_*` and `LINK_TYPE_*` constants. It also holds one function per
  emitter giving the text that emitter writes, and lemmas showing that each
  emitter's content can be recovered between the tags it chose.
- `Sections`: the section state machine over a run of headings. It gives the
  exact count of section opens and closes, proves balanced nesting when levels
  rise by at most one, and proves that skipping levels writes more closes than
  opens.
- `Citations`: the citation records, their counting by type, the include lines
  of `References`, and the reference groups. It proves that reordering the
  citations changes neither the counts nor the multiset of include lines.
- `TitleBlock`: the front matter that `TitleBlockTOML` writes.

A callback whose source parameter is `text func() bool` takes `inner`, the
text the nested rendering appends, instead. Where the source tests the boolean
that the callback returns (`List` and `Paragraph`), it also takes `produced`,
that boolean; `Header` ignores it, as the source does.

Four helpers that the file calls but does not define are fixed when the
renderer is constructed and are otherwise uninterpreted: `renderIAL`,
`referenceFile`, `convertEntity` and the keyword set `words2119`. The standalone
flag is a boolean.

## Model

| member | source | states |
|---|---|---|
| Renderer.Xml2.constructor | xml2rfcv2.go:39-41 | A new renderer has an empty buffer, no open section, front matter, no pending attribute list and no title block; nesting holds. |
| Renderer.Xml2.SetIal | xml2rfcv2.go:32 | The attribute lists given are appended to the pending queue. |
| Renderer.Xml2.GetAndResetIal | xml2rfcv2.go:33 | Returns everything queued since the last reset and leaves the queue empty. |
| Renderer.Xml2.GetState | xml2rfcv2.go:47-49 | The state reported is always 0. |
| Renderer.Xml2.BlockCode | xml2rfcv2.go:52-65 | Consumes the queue and appends a sourcecode element holding the code, whose opening tag carries the rendered attributes and, when there is a language, a leading newline and a `type` attribute. |
| Renderer.Xml2.TitleBlockToml | xml2rfcv2.go:69-111 | Outside standalone mode nothing changes. In standalone mode the block is stored and the root element, front opening, title, date, area, workgroup, keywords in order, authors in order and a final newline are appended. |
| Renderer.Xml2.WriteTitleHead | xml2rfcv2.go:74-96 | Appends the root element, the front opening, the title element, the date element, the area and the workgroup, in this order. |
| Renderer.Xml2.WriteDate | xml2rfcv2.go:81-93 | Appends the date element, with the year, month and day attributes each present only when positive. |
| Renderer.Xml2.WriteKeywords | xml2rfcv2.go:97-99 | Appends one keyword element per keyword, in order. |
| Renderer.Xml2.WriteAuthors | xml2rfcv2.go:100-108 | Appends one author element per author, in order. |
| Renderer.Xml2.WriteAuthor | xml2rfcv2.go:101-107 | Appends an author element with initials, surname, full name, role and ASCII name, in this order. |
| Renderer.Xml2.BlockQuote | xml2rfcv2.go:113-118 | Consumes the queue and appends a blockquote element holding the text, with the rendered attributes in its tag. |
| Renderer.Xml2.Abstract | xml2rfcv2.go:120-124 | Appends an abstract element holding the text; the queue is untouched. |
| Renderer.Xml2.Aside | xml2rfcv2.go:126-130 | Appends an aside element holding the text; the queue is untouched. |
| Renderer.Xml2.Note | xml2rfcv2.go:132-136 | Appends a note element holding the text; the queue is untouched. |
| Renderer.Xml2.Figure | xml2rfcv2.go:138-142 | Appends a figure element holding the text; the queue is untouched. |
| Renderer.Xml2.BlockHtml | xml2rfcv2.go:144-149 | Appends the raw text inside a verbatim environment. |
| Renderer.Xml2.Header | xml2rfcv2.go:151-176 | A quoted heading appends `<name>`, the title and `</name>` and changes no state. Otherwise the heading first closes `sectionLevel - level + 1` sections when its level is not deeper, and none otherwise. It then opens one section with the anchor and a name element, and sets the level. Starting from a nested state, a heading at level 1 or deeper never closes more sections than are open, and it keeps nesting when its level rises by at most one. A heading at level 0 or below is not constrained this way. |
| Renderer.Xml2.List | xml2rfcv2.go:182-209 | When the items report no output the buffer is exactly as before. Otherwise it holds the opening tag (`ol` with a start attribute when start > 1, else `ol`, `dl` or `ul`), the items, then the matching closing tag. |
| Renderer.Xml2.ListItem | xml2rfcv2.go:211-227 | Appends the item inside `dd` for a definition that is not a term, `dt` for a term, and `li` otherwise. |
| Renderer.Xml2.Paragraph | xml2rfcv2.go:229-237 | When the content reports no output the buffer is exactly as before; otherwise it appends a `t` element holding the content. |
| Renderer.Xml2.Table | xml2rfcv2.go:241-247 | Appends a table whose head holds the header rows, followed by the body rows. |
| Renderer.Xml2.TableRow | xml2rfcv2.go:249-253 | Appends a `tr` element holding the row. |
| Renderer.Xml2.TableHeaderCell | xml2rfcv2.go:255-269 | Appends a `th` element whose alignment attribute is left, right, or center for any other alignment. |
| Renderer.Xml2.TableCell | xml2rfcv2.go:271-275 | Appends a `td` element; the alignment is ignored. |
| Renderer.Xml2.Index | xml2rfcv2.go:285-288 | Appends an `iref` with the item and subitem. |
| Renderer.Xml2.Citation | xml2rfcv2.go:290-292 | Appends an `xref` to the link; the title is ignored. |
| Renderer.Xml2.AutoLink | xml2rfcv2.go:356-365 | Appends a hyperlink whose target gets a `mailto:` prefix exactly for e-mail links, and whose text is the link. |
| Renderer.Xml2.CodeSpan | xml2rfcv2.go:367-371 | Appends the entity-converted text inside `tt`. |
| Renderer.Xml2.DoubleEmphasis | xml2rfcv2.go:373-385 | Appends the text inside `bcp14` when it is a requirement keyword, else inside `strong`. |
| Renderer.Xml2.Emphasis | xml2rfcv2.go:387-391 | Appends the text inside `em`. |
| Renderer.Xml2.Image | xml2rfcv2.go:393-406 | A target starting with `http://` or `https://` becomes a hyperlink showing the alternative text; any other target becomes an included graphic. |
| Renderer.Xml2.LineBreak | xml2rfcv2.go:408-410 | Appends a `vspace` line break. |
| Renderer.Xml2.Link | xml2rfcv2.go:412-418 | Appends a hyperlink to the link showing the content; the title is ignored. |
| Renderer.Xml2.TripleEmphasis | xml2rfcv2.go:423-427 | Appends the text inside `strong` and `em`. |
| Renderer.Xml2.StrikeThrough | xml2rfcv2.go:429-431 | Appends the text unmarked. |
| Renderer.Xml2.Entity | xml2rfcv2.go:437-439 | Appends the entity unchanged. |
| Renderer.Xml2.NormalText | xml2rfcv2.go:441-443 | Appends the text unchanged. |
| Renderer.Xml2.CloseOpenSections | xml2rfcv2.go:298-302 | Appends one section close per level above zero and brings the level to zero; a level of zero or less writes nothing. |
| Renderer.Xml2.MoveToBackMatter | xml2rfcv2.go:303-313 | Writes `</front>` or `</middle>` then `<back>`, chosen by the open matter, or nothing from back matter; back matter is then open. |
| Renderer.Xml2.EmitIncludes | xml2rfcv2.go:328-335 | Appends the include line of every citation of the type, in citation order. |
| Renderer.Xml2.WriteReferenceGroups | xml2rfcv2.go:314-353 | Appends exactly the reference groups of the citations. |
| Renderer.Xml2.References | xml2rfcv2.go:294-354 | Unless it is the first call in standalone mode nothing changes. Otherwise it closes every open section, moves into back matter, then writes the reference groups. From a nested state it ends with every opened section closed. |
| Renderer.Xml2.DocumentHeader | xml2rfcv2.go:446-451 | Only on the first call in standalone mode does it append the XML declaration. |
| Renderer.Xml2.DocumentFooter | xml2rfcv2.go:453-471 | Unless it is the first call in standalone mode nothing changes. Otherwise it writes the open sections' closes, exactly one close of the open matter, then `</rfc>`. From a nested state it ends with every opened section closed. |
| Renderer.Xml2.DocumentMatter | xml2rfcv2.go:473-486 | Always records the matter. It writes `</front><middle>` for main matter, `</middle><back>` for back matter, and nothing for front matter. |
| Sections.HeaderCloses | xml2rfcv2.go:163-168 | A heading closes some section exactly when its level is not deeper than the current one, and then closes down to one level above it. |
| Sections.SectionsToClose | xml2rfcv2.go:458-461 | The end of the document closes as many sections as the current level when it is positive, and none otherwise. |
| Sections.SectionCounts | xml2rfcv2.go:163-174 | Over any run of headings, the closes plus the final level equal the starting level plus the sections opened plus the levels skipped. |
| Sections.NoSkipIffRisesByAtMostOne | xml2rfcv2.go:163-174 | No level is skipped exactly when every heading is at most one level deeper than the one before it. |
| Sections.Balanced | xml2rfcv2.go:163-174 | From no open section, with levels of at least one rising by at most one, the closes written by the headings and by the end equal the sections opened. |
| Sections.OverclosesWhenSkipping | xml2rfcv2.go:458-461 | A run that skips a level ends with more closes than opens, one extra per skipped level. |
| Sections.SkipFromOneToThree | xml2rfcv2.go:458-461 | Level 1 then level 3 opens two sections, closes none in the headings, and closes three at the end. |
| Citations.CountPositive | xml2rfcv2.go:315-323 | The count of a type is positive exactly when some citation has that type. |
| Citations.CountReferences | xml2rfcv2.go:315-323 | The counting loop yields the number of informative and of normative citations. |
| Citations.Href | xml2rfcv2.go:329-333 | The include target is the citation's file name when it has one, else the derived reference file. |
| Citations.IncludeLines | xml2rfcv2.go:328-335 | There is exactly one include line per citation of the type. |
| Citations.IncludeLinesMembership | xml2rfcv2.go:328-335 | Every citation of the type has its line among the lines, and every line belongs to such a citation. |
| Citations.IncludeLinesPermutation | xml2rfcv2.go:314-353 | Any reordering of the citations gives the same count and the same include lines as a multiset. |
| Citations.GroupKeepsLines | xml2rfcv2.go:327-336 | A group holds its include lines unchanged between its opening tag and `</references>`. |
| Citations.ReferenceGroups | xml2rfcv2.go:326-353 | The informative group comes first, then the normative group, each only when it has a line. Nothing is written exactly when no citation is informative or normative. |
| Citations.GroupWrittenIffCited | xml2rfcv2.go:326-353 | A group is written exactly when some citation has its type, and it has one line per such citation. |
| Citations.ReferenceGroupsShapeIndependentOfOrder | xml2rfcv2.go:314-353 | Reordering the citations changes neither which groups are written nor the multiset of lines in each. |
| TitleBlock.YearAttr | xml2rfcv2.go:81-84 | The year attribute is empty exactly when the year is not positive. |
| TitleBlock.MonthAttr | xml2rfcv2.go:85-88 | The month attribute is empty exactly when the month is not positive. |
| TitleBlock.DayAttr | xml2rfcv2.go:89-92 | The day attribute is empty exactly when the day is not positive. |
| TitleBlock.DateAttributesReadBack | xml2rfcv2.go:81-93 | A positive year or day is written as a number that reads back as itself, and a positive month as its name. The date element holds the three attributes unchanged. |
| Text.NatToString | xml2rfcv2.go:83 | Decimal printing yields a non-empty string of digits with no leading zero. |
| Text.ParseNatToString | xml2rfcv2.go:83 | Reading the printed number back gives the number. |
| Markup.ListTag | xml2rfcv2.go:184-195 | The list element is `ol` exactly for ordered lists, `dl` exactly for definition lists that are not ordered, and `ul` otherwise. |
| Markup.ListOpenTag | xml2rfcv2.go:184-195 | Apart from an ordered list starting above 1, a list opens its element bare. |
| Markup.ListOpenTagNamesElement | xml2rfcv2.go:184-195 | Every opening tag begins with the list element. An ordered list starting above 1 carries the start index, which reads back as itself. |
| Markup.ListCloseTag | xml2rfcv2.go:201-208 | The closing tag names the element that the opening tag opened. |
| Markup.ListItemTag | xml2rfcv2.go:211-227 | An item is `dd` exactly for a definition that is not a term, `dt` exactly for a term, and `li` exactly when neither bit is set. |
| Markup.ListItemAndParagraphKeepContent | xml2rfcv2.go:211-237 | List items and paragraphs hold their content unchanged inside their element. |
| Markup.AlignAttr | xml2rfcv2.go:256-264 | The alignment is left or right exactly for those alignments, and center for every other value. |
| Markup.TableEmittersKeepContent | xml2rfcv2.go:241-275 | Tables, rows and cells hold their content unchanged between their tags, and the head closes between the header and the body. |
| Markup.BlockEmittersKeepContent | xml2rfcv2.go:52-149 | The code, quote, abstract, aside, note, figure and raw blocks hold their content unchanged between their tags. |
| Markup.NameKeepsTitle | xml2rfcv2.go:156-173 | A heading's title appears unchanged inside `<name>`. |
| Markup.InlineEmittersKeepContent | xml2rfcv2.go:285-427 | Index entries, citations, autolinks, emphasis, links and triple emphasis hold their text unchanged, and code spans hold the entity-converted text, between delimiters built from the element's tag, plus the link for links and autolinks. |
| Markup.DoubleEmphasisChoosesTag | xml2rfcv2.go:373-385 | The output begins with `<bcp14>` exactly when the text is a keyword, and the text is kept in either element. |
| Markup.ImageChoosesTarget | xml2rfcv2.go:393-406 | The output is a hyperlink exactly when the target is a web link; it shows the alternative text, and the graphic otherwise names the target. |
| Markup.MatterClose | xml2rfcv2.go:462-469 | The closing tag names the open matter's element. |
| Markup.MatterSwitch | xml2rfcv2.go:473-486 | Nothing is written exactly for front matter. Main matter closes front and opens middle; back matter closes middle and opens back. |
| Markup.BackTransition | xml2rfcv2.go:303-312 | Nothing is written exactly from back matter; otherwise the open matter is closed and back is opened. |

## Left out

- The stub callbacks `TitleBlock`, `HRule`, `Tables`, `Footnotes`, `FootnoteItem`, `RawHtmlTag` and `FootnoteRef` are not modelled, because they have empty bodies.
- `GetFlags` is not modelled: the flags are reduced to the one bit the renderer tests, the standalone boolean.
- The flag is tested as `XML_STANDALONE` in lines 70, 295, 447 and 454, while line 14 defines `XML2_STANDALONE`. That constant and the `DOC_*`, `LIST_TYPE_*`, `TABLE_ALIGNMENT_*` and `LINK_TYPE_EMAIL` values are defined outside this file, so they are modelled as a boolean and enumerations.
- The renderer starts in front matter. The source struct starts with the zero value of `docLevel`, whose meaning depends on a constant defined elsewhere. The choice of front matter follows the comment at line 474.
- `renderIAL`, `referenceFile`, `convertEntity` and `words2119` are not part of this model. They are uninterpreted values fixed at construction, and an inline attribute list is an opaque type.
- Renderer.Xml2.CodeSpan: `convertEntity` writes into the buffer in the source; the model treats what it writes as a function of the text.
- Callbacks with a `text func() bool` parameter take the nested output as a parameter, and also the reported boolean where the source tests it. Any change that nested rendering makes to the renderer's own state is not modelled.
- The citations are a map in the source, visited in an unspecified order, once per loop. The model visits a sequence and uses the same order in every loop. The permutation lemmas show that only the order of lines inside a group depends on it.
- The `columnData` and `table` parameters of `Table` are unused by the source and left out.
- The buffer holds characters rather than bytes; no encoding is modelled.
- `time.Month.String` is modelled for positive months, the only ones the source formats. `strconv.Itoa` and the `%d` verb are modelled for the non-negative values they receive here.
- `sectionLevel` and heading levels are unbounded integers; Go's `int` overflow is not modelled, because levels are small.
- `TitleBlockToml`, `EmitIncludes` and the reference groups of `References` are split into helper methods (`WriteTitleHead`, `WriteDate`, `WriteKeywords`, `WriteAuthors`, `WriteAuthor`, `CloseOpenSections`, `MoveToBackMatter`, `Citations.CountReferences`, `WriteReferenceGroups`). These write the same strings in the same order as the single Go methods.
