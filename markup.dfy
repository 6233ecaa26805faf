/** The XML2RFC v2 markup that the renderer's callbacks append, one function
    per callback, each returning exactly the text that callback writes to the
    output buffer (xml2rfcv2.go). The enumerations stand for the integer
    constants the source switches on. The lemmas at the end state, for each
    group of emitters, that the content handed to a callback is found again,
    unchanged, between the tags it chose. */
module Markup {
  import opened Text

  /** One inline attribute list attached by the parser to the next block.
      Its structure and rendering belong to code outside this model. */
  type Ial

  /** Which top-level container of the document is open (DOC_* constants). */
  datatype Matter = FrontMatter | MainMatter | BackMatter

  /** The LIST_TYPE_* bits the renderer tests in a list's flags. */
  datatype ListFlags = ListFlags(ordered: bool, definition: bool, term: bool)

  /** TABLE_ALIGNMENT_* values; `Unaligned` stands for any other value. */
  datatype Alignment = AlignLeft | AlignRight | AlignCenter | Unaligned

  /** LINK_TYPE_* values an autolink carries. */
  datatype LinkKind = NotAutoLink | NormalLink | EmailLink

  // ----- Block emitters -----

  /** The opening tag of `BlockCode`: with a language the element is
      preceded by a newline and carries a `type` attribute, written straight
      after the rendered attributes. */
  function SourceCodeOpen(attrs: string, lang: string): string {
    if lang == "" then "<sourcecode" + attrs + ">\n"
    else "\n<sourcecode" + attrs + "type=\"" + lang + "\">\n"
  }

  /** `BlockCode`: the code inside a sourcecode element. */
  function SourceCodeMarkup(attrs: string, text: string, lang: string): string {
    Wrap(SourceCodeOpen(attrs, lang), text, "</sourcecode>\n")
  }

  function BlockQuoteMarkup(attrs: string, text: string): string {
    Wrap("<blockquote" + attrs + ">\n", text, "</blockquote>\n")
  }

  function AbstractMarkup(text: string): string {
    Wrap("<abstract>\n", text, "</abstract>\n")
  }

  function AsideMarkup(text: string): string {
    Wrap("<aside>\n", text, "</aside>\n")
  }

  function NoteMarkup(text: string): string {
    Wrap("<note>\n", text, "</note>\n")
  }

  function FigureMarkup(text: string): string {
    Wrap("<figure>\n", text, "</figure>\n")
  }

  /** `BlockHtml`: raw block content inside a LaTeX verbatim environment. */
  function VerbatimMarkup(text: string): string {
    Wrap("\n\\begin{verbatim}\n", text, "\n\\end{verbatim}\n")
  }

  // ----- Headers -----

  /** The `<name>` element holding a heading's title. */
  function NameMarkup(inner: string): string {
    Wrap("<name>", inner, "</name>\n")
  }

  /** The opening tag of a new section with the heading's anchor. */
  function SectionAnchor(id: string): string {
    "\n<section anchor=\"" + id + "\">\n"
  }

  const SectionClose := "</section>\n"

  /** `n` section closing tags. */
  function SectionCloses(n: nat): string {
    Repeat(SectionClose, n)
  }

  // ----- Lists -----

  /** The list element: ordered wins over definition, anything else is a
      bullet list. */
  function ListTag(flags: ListFlags): (r: string)
    ensures r == "ol" <==> flags.ordered
    ensures r == "dl" <==> !flags.ordered && flags.definition
    ensures r == "ul" <==> !flags.ordered && !flags.definition
  {
    if flags.ordered then "ol" else if flags.definition then "dl" else "ul"
  }

  /** The opening tag `List` writes before the items; an ordered list whose
      start index is above 1 names it in a `start` attribute, every other
      list opens its element bare. */
  function ListOpenTag(flags: ListFlags, start: int): (r: string)
    ensures !(flags.ordered && start > 1) ==> r == "<" + ListTag(flags) + ">\n"
  {
    if flags.ordered then
      if start <= 1 then "<ol>\n" else Wrap("<ol start=\"", NatToString(start), "\">\n")
    else if flags.definition then "<dl>\n"
    else "<ul>\n"
  }

  /** The closing tag `List` writes after the items; it names the element
      the opening tag opened. */
  function ListCloseTag(flags: ListFlags): (r: string)
    ensures r == "</" + ListTag(flags) + ">\n"
  {
    if flags.ordered then "</ol>\n" else if flags.definition then "</dl>\n" else "</ul>\n"
  }

  /** The element of one list item: a definition unless it is a term, a
      term whenever the term bit is set, otherwise a plain item. */
  function ListItemTag(flags: ListFlags): (r: string)
    ensures r == "dd" <==> flags.definition && !flags.term
    ensures r == "dt" <==> flags.term
    ensures r == "li" <==> !flags.definition && !flags.term
  {
    if flags.definition && !flags.term then "dd" else if flags.term then "dt" else "li"
  }

  function ListItemMarkup(text: string, flags: ListFlags): string {
    if flags.definition && !flags.term then Wrap("<dd>", text, "</dd>\n")
    else if flags.term then Wrap("<dt>", text, "</dt>\n")
    else Wrap("<li>", text, "</li>\n")
  }

  function ParagraphMarkup(text: string): string {
    Wrap("<t>", text, "</t>\n")
  }

  // ----- Tables -----

  /** `Table`: the header rows inside `<thead>`, then the body rows. */
  function TableMarkup(header: string, body: string): string {
    Wrap("<table>\n<thead>\n", header + "</thead>\n" + body, "</table>\n")
  }

  function TableRowMarkup(text: string): string {
    Wrap("<tr>", text, "</tr>\n")
  }

  /** The alignment attribute of a header cell: left and right are named,
      every other alignment becomes center. */
  function AlignAttr(align: Alignment): (r: string)
    ensures r == " align=\"left\"" <==> align == AlignLeft
    ensures r == " align=\"right\"" <==> align == AlignRight
    ensures r == " align=\"center\"" <==> align != AlignLeft && align != AlignRight
  {
    match align
    case AlignLeft => " align=\"left\""
    case AlignRight => " align=\"right\""
    case _ => " align=\"center\""
  }

  function TableHeaderCellMarkup(text: string, align: Alignment): string {
    Wrap("<th" + AlignAttr(align) + ">", text, "</th>")
  }

  /** Body cells carry no alignment. */
  function TableCellMarkup(text: string): string {
    Wrap("<td>", text, "</td>")
  }

  // ----- Inline emitters -----

  function IndexMarkup(primary: string, secondary: string): string {
    Wrap("<iref item=\"", primary + "\" subitem=\"" + secondary, "\"/>")
  }

  function CitationMarkup(link: string): string {
    Wrap("<xref target=\"", link, "\"/>")
  }

  /** `AutoLink`: a LaTeX hyperlink whose target gains a `mailto:` prefix
      for e-mail links and whose text is the link itself. */
  function AutoLinkTarget(kind: LinkKind): string {
    "\\href{" + (if kind == EmailLink then "mailto:" else "")
  }

  function AutoLinkMarkup(link: string, kind: LinkKind): string {
    Wrap(AutoLinkTarget(kind), link, "}{" + link + "}")
  }

  /** `CodeSpan`, given the text after entity conversion. */
  function CodeSpanMarkup(converted: string): string {
    Wrap("<tt>", converted, "</tt>")
  }

  /** `DoubleEmphasis`: a requirement keyword becomes `<bcp14>`, any other
      text `<strong>`. */
  function DoubleEmphasisMarkup(text: string, keywords: set<string>): string {
    if text in keywords then Wrap("<bcp14>", text, "</bcp14>") else Wrap("<strong>", text, "</strong>")
  }

  function EmphasisMarkup(text: string): string {
    Wrap("<em>", text, "</em>")
  }

  /** A link target with a network scheme prefix. */
  predicate IsWebLink(link: string) {
    HasPrefix(link, "http://") || HasPrefix(link, "https://")
  }

  /** `Image`: a web link becomes a hyperlink showing the alternative
      text; any other target an included graphic. */
  function ImageMarkup(link: string, alt: string): string {
    if IsWebLink(link) then Wrap("\\href{" + link + "}{", alt, "}")
    else Wrap("\\includegraphics{", link, "}")
  }

  const LineBreakMarkup := "\n<vspace/>\n"

  function LinkMarkup(link: string, content: string): string {
    Wrap("\\href{" + link + "}{", content, "}")
  }

  function TripleEmphasisMarkup(text: string): string {
    Wrap("<strong><em>", text, "</em></strong>")
  }

  // ----- Document matter -----

  const XmlDeclaration := "<?xml version=\"1.0\" encoding=\"UTF-8\"?>\n"

  const RfcClose := "</rfc>\n"

  function MatterTag(m: Matter): string {
    match m
    case FrontMatter => "front"
    case MainMatter => "middle"
    case BackMatter => "back"
  }

  function MatterOpen(m: Matter): string {
    "<" + MatterTag(m) + ">\n"
  }

  /** The tag `DocumentFooter` writes to close the open matter container. */
  function MatterClose(m: Matter): (r: string)
    ensures r == "</" + MatterTag(m) + ">\n"
  {
    match m
    case FrontMatter => "</front>\n"
    case MainMatter => "</middle>\n"
    case BackMatter => "</back>\n"
  }

  /** What `DocumentMatter(m)` writes: main matter closes the front and
      opens the middle, back matter closes the middle and opens the back,
      and front matter (already open) writes nothing. */
  function MatterSwitch(m: Matter): (r: string)
    ensures r == "" <==> m == FrontMatter
    ensures m == MainMatter ==> r == MatterClose(FrontMatter) + MatterOpen(MainMatter)
    ensures m == BackMatter ==> r == MatterClose(MainMatter) + MatterOpen(BackMatter)
  {
    match m
    case FrontMatter => ""
    case MainMatter => "</front>\n" + "<middle>\n"
    case BackMatter => "</middle>\n" + "<back>\n"
  }

  /** What `References` writes to move into back matter: close whichever
      container is open and open the back, unless the back is already open. */
  function BackTransition(from: Matter): (r: string)
    ensures r == "" <==> from == BackMatter
    ensures from != BackMatter ==> r == MatterClose(from) + MatterOpen(BackMatter)
  {
    match from
    case FrontMatter => "</front>\n" + "<back>\n"
    case MainMatter => "</middle>\n" + "<back>\n"
    case BackMatter => ""
  }

  // ----- What each emitter's output contains -----

  /** Block emitters write their content unchanged between the opening
      and the closing tag of their element. */
  lemma BlockEmittersKeepContent(attrs: string, text: string, lang: string)
    ensures Unwrap(SourceCodeMarkup(attrs, text, lang), SourceCodeOpen(attrs, lang), "</sourcecode>\n") == Some(text)
    ensures Unwrap(BlockQuoteMarkup(attrs, text), "<blockquote" + attrs + ">\n", "</blockquote>\n") == Some(text)
    ensures Unwrap(AbstractMarkup(text), "<abstract>\n", "</abstract>\n") == Some(text)
    ensures Unwrap(AsideMarkup(text), "<aside>\n", "</aside>\n") == Some(text)
    ensures Unwrap(NoteMarkup(text), "<note>\n", "</note>\n") == Some(text)
    ensures Unwrap(FigureMarkup(text), "<figure>\n", "</figure>\n") == Some(text)
    ensures Unwrap(VerbatimMarkup(text), "\n\\begin{verbatim}\n", "\n\\end{verbatim}\n") == Some(text)
  {
    UnwrapWrap(SourceCodeOpen(attrs, lang), text, "</sourcecode>\n");
    UnwrapWrap("<blockquote" + attrs + ">\n", text, "</blockquote>\n");
    UnwrapWrap("<abstract>\n", text, "</abstract>\n");
    UnwrapWrap("<aside>\n", text, "</aside>\n");
    UnwrapWrap("<note>\n", text, "</note>\n");
    UnwrapWrap("<figure>\n", text, "</figure>\n");
    UnwrapWrap("\n\\begin{verbatim}\n", text, "\n\\end{verbatim}\n");
  }

  /** A heading's title is written unchanged inside `<name>`. */
  lemma NameKeepsTitle(inner: string)
    ensures Unwrap(NameMarkup(inner), "<name>", "</name>\n") == Some(inner)
  {
    UnwrapWrap("<name>", inner, "</name>\n");
  }

  /** Every list opens the element its closing tag names; an ordered list
      with a start index above 1 carries that index, which reads back as
      the same number. */
  lemma ListOpenTagNamesElement(flags: ListFlags, start: int)
    ensures HasPrefix(ListOpenTag(flags, start), "<" + ListTag(flags))
    ensures HasSuffix(ListOpenTag(flags, start), ">\n")
    ensures flags.ordered && start > 1 ==>
              Unwrap(ListOpenTag(flags, start), "<ol start=\"", "\">\n") == Some(NatToString(start)) &&
              ParseDecimal(NatToString(start)) == start
  {
    var r := ListOpenTag(flags, start);
    var p := "<" + ListTag(flags);
    if flags.ordered && start > 1 {
      UnwrapWrap("<ol start=\"", NatToString(start), "\">\n");
      assert r[..3] == p;
      ParseNatToString(start);
    } else {
      assert r[..|p|] == p;
    }
  }

  /** List items and paragraphs write their content unchanged inside the
      element their flags choose. */
  lemma ListItemAndParagraphKeepContent(text: string, flags: ListFlags)
    ensures Unwrap(ListItemMarkup(text, flags), "<" + ListItemTag(flags) + ">", "</" + ListItemTag(flags) + ">\n") == Some(text)
    ensures Unwrap(ParagraphMarkup(text), "<t>", "</t>\n") == Some(text)
  {
    UnwrapWrap("<" + ListItemTag(flags) + ">", text, "</" + ListItemTag(flags) + ">\n");
    UnwrapWrap("<t>", text, "</t>\n");
  }

  /** Table emitters write their rows and cells unchanged; `<thead>`
      closes between the header and the body. */
  lemma TableEmittersKeepContent(header: string, body: string, text: string, align: Alignment)
    ensures Unwrap(TableMarkup(header, body), "<table>\n<thead>\n", "</table>\n") == Some(header + "</thead>\n" + body)
    ensures Unwrap(TableRowMarkup(text), "<tr>", "</tr>\n") == Some(text)
    ensures Unwrap(TableHeaderCellMarkup(text, align), "<th" + AlignAttr(align) + ">", "</th>") == Some(text)
    ensures Unwrap(TableCellMarkup(text), "<td>", "</td>") == Some(text)
  {
    UnwrapWrap("<table>\n<thead>\n", header + "</thead>\n" + body, "</table>\n");
    UnwrapWrap("<tr>", text, "</tr>\n");
    UnwrapWrap("<th" + AlignAttr(align) + ">", text, "</th>");
    UnwrapWrap("<td>", text, "</td>");
  }

  /** Inline emitters write their argument unchanged between delimiters
      built from the element's tag, and, for links, from the link itself.
      A code span's argument is the text after entity conversion. */
  lemma InlineEmittersKeepContent(text: string, link: string, secondary: string, kind: LinkKind)
    ensures Unwrap(IndexMarkup(text, secondary), "<iref item=\"", "\"/>") == Some(text + "\" subitem=\"" + secondary)
    ensures Unwrap(CitationMarkup(link), "<xref target=\"", "\"/>") == Some(link)
    ensures kind == EmailLink ==> Unwrap(AutoLinkMarkup(link, kind), "\\href{mailto:", "}{" + link + "}") == Some(link)
    ensures kind != EmailLink ==> Unwrap(AutoLinkMarkup(link, kind), "\\href{", "}{" + link + "}") == Some(link)
    ensures Unwrap(CodeSpanMarkup(text), "<tt>", "</tt>") == Some(text)
    ensures Unwrap(EmphasisMarkup(text), "<em>", "</em>") == Some(text)
    ensures Unwrap(LinkMarkup(link, text), "\\href{" + link + "}{", "}") == Some(text)
    ensures Unwrap(TripleEmphasisMarkup(text), "<strong><em>", "</em></strong>") == Some(text)
  {
    UnwrapWrap("<iref item=\"", text + "\" subitem=\"" + secondary, "\"/>");
    UnwrapWrap("<xref target=\"", link, "\"/>");
    UnwrapWrap(AutoLinkTarget(kind), link, "}{" + link + "}");
    UnwrapWrap("<tt>", text, "</tt>");
    UnwrapWrap("<em>", text, "</em>");
    UnwrapWrap("\\href{" + link + "}{", text, "}");
    UnwrapWrap("<strong><em>", text, "</em></strong>");
  }

  /** Strong text is marked `<bcp14>` exactly when it is a requirement
      keyword, and `<strong>` otherwise; the text is kept either way. */
  lemma DoubleEmphasisChoosesTag(text: string, keywords: set<string>)
    ensures text in keywords ==> Unwrap(DoubleEmphasisMarkup(text, keywords), "<bcp14>", "</bcp14>") == Some(text)
    ensures text !in keywords ==> Unwrap(DoubleEmphasisMarkup(text, keywords), "<strong>", "</strong>") == Some(text)
    ensures HasPrefix(DoubleEmphasisMarkup(text, keywords), "<bcp14>") <==> text in keywords
  {
    var r := DoubleEmphasisMarkup(text, keywords);
    if text in keywords {
      UnwrapWrap("<bcp14>", text, "</bcp14>");
    } else {
      UnwrapWrap("<strong>", text, "</strong>");
      assert r[1] == 's';
    }
  }

  /** An image is a hyperlink showing its alternative text exactly when its
      target is a web link, and an included graphic of the target otherwise. */
  lemma ImageChoosesTarget(link: string, alt: string)
    ensures IsWebLink(link) ==> Unwrap(ImageMarkup(link, alt), "\\href{" + link + "}{", "}") == Some(alt)
    ensures !IsWebLink(link) ==> Unwrap(ImageMarkup(link, alt), "\\includegraphics{", "}") == Some(link)
    ensures HasPrefix(ImageMarkup(link, alt), "\\href{") <==> IsWebLink(link)
  {
    var r := ImageMarkup(link, alt);
    if IsWebLink(link) {
      UnwrapWrap("\\href{" + link + "}{", alt, "}");
      assert r[..6] == "\\href{";
    } else {
      UnwrapWrap("\\includegraphics{", link, "}");
      assert r[1] == 'i';
    }
  }
}
