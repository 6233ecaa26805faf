/** The XML2RFC v2 renderer `Xml2` (xml2rfcv2.go): one object that the
    markdown parser drives with a callback per element, in document order.
    Every callback appends to the output buffer `out`; the section, matter and
    attribute-list state lives in the fields `sectionLevel`, `docLevel` and
    `ial`.

    A callback that takes a `text func() bool` in the source takes here the
    text that the nested rendering writes (`inner`) and, where the source tests
    it, the boolean that it reports (`produced`). */
module Renderer {
  import opened Text
  import opened Markup
  import opened Sections
  import opened Citations
  import opened TitleBlock

  class Xml2 {
    /** The standalone option: emit a whole document rather than a fragment. */
    const standalone: bool
    /** Rendering of pending attribute lists (`renderIAL`). */
    const renderIal: seq<Ial> -> string
    /** File naming convention for citations without a file (`referenceFile`). */
    const referenceFile: CitationRecord -> string
    /** Entity conversion used by code spans (`convertEntity`). */
    const convertEntity: string -> string
    /** The requirement-level keywords (`words2119`). */
    const words2119: set<string>

    var out: string
    var sectionLevel: int
    var docLevel: Matter
    var ial: seq<Ial>
    var titleBlock: Option<Title>

    /** Section opening and closing tags written so far. */
    ghost var sectionsOpened: nat
    ghost var sectionsClosed: nat

    /** `sectionLevel` is the number of sections left open in `out`. */
    ghost predicate Nested()
      reads this
    {
      0 <= sectionLevel && sectionsOpened == sectionsClosed + sectionLevel
    }

    /** `Xml2Renderer`: an empty buffer, no open section, front matter. */
    constructor (standalone: bool, renderIal: seq<Ial> -> string, referenceFile: CitationRecord -> string,
                 convertEntity: string -> string, words2119: set<string>)
      ensures this.standalone == standalone && this.renderIal == renderIal
      ensures this.referenceFile == referenceFile && this.convertEntity == convertEntity
      ensures this.words2119 == words2119
      ensures out == "" && sectionLevel == 0 && docLevel == FrontMatter && ial == [] && titleBlock == None
      ensures sectionsOpened == 0 && sectionsClosed == 0 && Nested()
    {
      this.standalone := standalone;
      this.renderIal := renderIal;
      this.referenceFile := referenceFile;
      this.convertEntity := convertEntity;
      this.words2119 := words2119;
      out := "";
      sectionLevel := 0;
      docLevel := FrontMatter;
      ial := [];
      titleBlock := None;
      sectionsOpened, sectionsClosed := 0, 0;
    }

    // ----- Pending attribute lists -----

    method SetIal(i: seq<Ial>)
      modifies this`ial
      ensures ial == old(ial) + i
    {
      ial := ial + i;
    }

    method GetAndResetIal() returns (i: seq<Ial>)
      modifies this`ial
      ensures i == old(ial) && ial == []
    {
      i := ial;
      ial := [];
    }

    method GetState() returns (state: int)
      ensures state == 0
    {
      state := 0;
    }

    // ----- Block emitters -----

    /** Consumes the pending attribute lists and renders them into the tag. */
    method BlockCode(text: string, lang: string)
      modifies this`out, this`ial
      ensures ial == []
      ensures out == old(out) + SourceCodeMarkup(renderIal(old(ial)), text, lang)
    {
      var pending := GetAndResetIal();
      var s := renderIal(pending);
      if lang == "" {
        out := out + ("<sourcecode" + s + ">\n");
      } else {
        out := out + ("\n<sourcecode" + s + "type=\"" + lang + "\">\n");
      }
      out := out + text;
      out := out + "</sourcecode>\n";
      AppendWrap(old(out), SourceCodeOpen(s, lang), text, "</sourcecode>\n");
    }

    /** In standalone mode, keeps the title block and writes the root
        element, the front matter opening and the title fields in order. */
    method TitleBlockToml(block: Title)
      modifies this`out, this`titleBlock
      ensures !standalone ==> out == old(out) && titleBlock == old(titleBlock)
      ensures standalone ==> titleBlock == Some(block) && out == old(out) + TitleMarkup(block)
    {
      if !standalone {
        return;
      }
      titleBlock := Some(block);
      WriteTitleHead(block);

      WriteKeywords(block.keywords);
      WriteAuthors(block.authors);
      out := out + "\n";
      ghost var h, km, am := TitleHead(block), KeywordsMarkup(block.keywords), AuthorsMarkup(block.authors);
      AppendAssoc(old(out), h, km);
      AppendAssoc(old(out), h + km, am);
      AppendAssoc(old(out), h + km + am, "\n");
    }

    /** The part of `TitleBlockTOML` before the keyword loop. */
    method WriteTitleHead(block: Title)
      modifies this`out
      ensures out == old(out) + TitleHead(block)
    {
      out := out + ("<rfc xmlns:xi=\"http://www.w3.org/2001/XInclude\" ipr=\"" +
        block.ipr + "\" category=\"" + block.category + "\" docName=\"" + block.docName + "\">\n");
      out := out + "<front>\n";
      ghost var root := out;
      out := out + ("<title abbrev=\"" + block.abbrev + "\">");
      out := out + (block.title + "</title>\n\n");
      AppendAssoc(root, "<title abbrev=\"" + block.abbrev + "\">", block.title + "</title>\n\n");
      WriteDate(block.date);
      out := out + ("<area>" + block.area + "</area>\n");
      out := out + ("<workgroup>" + block.workgroup + "</workgroup>\n");
      ghost var r, f, t, d := RootOpen(block), "<front>\n", TitleElement(block), DateElement(block.date);
      AppendAssoc(old(out), r, f);
      AppendAssoc(old(out), r + f, t);
      AppendAssoc(old(out), r + f + t, d);
      AppendAssoc(old(out), r + f + t + d, AreaElement(block));
      AppendAssoc(old(out), r + f + t + d + AreaElement(block), WorkgroupElement(block));
    }

    /** The date element of `TitleBlockTOML`: each attribute only when its
        value is positive. */
    method WriteDate(date: Date)
      modifies this`out
      ensures out == old(out) + DateElement(date)
    {
      var year := "";
      if date.year > 0 {
        year := " year=\"" + NatToString(date.year) + "\"";
      }
      var month := "";
      if date.month > 0 {
        month := " month=\"" + MonthName(date.month) + "\"";
      }
      var day := "";
      if date.day > 0 {
        day := " day=\"" + NatToString(date.day) + "\"";
      }
      out := out + ("<date" + year + month + day + "/>\n\n");
    }

    /** The keyword loop of `TitleBlockTOML`: one element per keyword. */
    method WriteKeywords(ks: seq<string>)
      modifies this`out
      ensures out == old(out) + KeywordsMarkup(ks)
    {
      for k := 0 to |ks|
        invariant out == old(out) + KeywordsMarkup(ks[..k])
      {
        assert ks[..k + 1][..k] == ks[..k];
        out := out + ("<keyword>" + ks[k] + "</keyword>\n");
      }
      assert ks[..|ks|] == ks;
    }

    /** The author loop of `TitleBlockTOML`: one element per author. */
    method WriteAuthors(authors: seq<Author>)
      modifies this`out
      ensures out == old(out) + AuthorsMarkup(authors)
    {
      for k := 0 to |authors|
        invariant out == old(out) + AuthorsMarkup(authors[..k])
      {
        assert authors[..k + 1][..k] == authors[..k];
        WriteAuthor(authors[k]);
        AppendAssoc(old(out), AuthorsMarkup(authors[..k]), AuthorElement(authors[k]));
      }
      assert authors[..|authors|] == authors;
    }

    /** The body of the author loop of `TitleBlockTOML`. */
    method WriteAuthor(a: Author)
      modifies this`out
      ensures out == old(out) + AuthorElement(a)
    {
      out := out + "<author>\n";
      out := out + ("<initials>" + a.initials + "</initials>\n");
      out := out + ("<surname>" + a.surname + "</surname>\n");
      out := out + ("<fullname>" + a.fullname + "</fullname>\n");
      out := out + ("<role>" + a.role + "</role>\n");
      out := out + ("<ascii>" + a.ascii + "</ascii>\n");
      out := out + "</author>\n";
    }

    /** Consumes the pending attribute lists and renders them into the tag. */
    method BlockQuote(text: string)
      modifies this`out, this`ial
      ensures ial == []
      ensures out == old(out) + BlockQuoteMarkup(renderIal(old(ial)), text)
    {
      var pending := GetAndResetIal();
      var s := renderIal(pending);
      out := out + ("<blockquote" + s + ">\n");
      out := out + text;
      out := out + "</blockquote>\n";
    }

    method Abstract(text: string)
      modifies this`out
      ensures out == old(out) + AbstractMarkup(text)
    {
      out := out + "<abstract>\n";
      out := out + text;
      out := out + "</abstract>\n";
    }

    method Aside(text: string)
      modifies this`out
      ensures out == old(out) + AsideMarkup(text)
    {
      out := out + "<aside>\n";
      out := out + text;
      out := out + "</aside>\n";
    }

    method Note(text: string)
      modifies this`out
      ensures out == old(out) + NoteMarkup(text)
    {
      out := out + "<note>\n";
      out := out + text;
      out := out + "</note>\n";
    }

    method Figure(text: string)
      modifies this`out
      ensures out == old(out) + FigureMarkup(text)
    {
      out := out + "<figure>\n";
      out := out + text;
      out := out + "</figure>\n";
    }

    method BlockHtml(text: string)
      modifies this`out
      ensures out == old(out) + VerbatimMarkup(text)
    {
      out := out + "\n\\begin{verbatim}\n";
      out := out + text;
      out := out + "\n\\end{verbatim}\n";
    }

    // ----- Section state machine -----

    /** A quoted heading is only a `<name>` and leaves the section state
        alone. Otherwise the heading closes every open section at its level
        or deeper, opens one section and makes its level the current one;
        starting from a nested state, a heading at level 1 or deeper closes
        no section that is not open, and when its level rises by at most one
        the current level stays the number of open sections. */
    method Header(inner: string, level: int, id: string, quote: bool)
      modifies this`out, this`sectionLevel, this`sectionsOpened, this`sectionsClosed
      ensures quote ==> out == old(out) + NameMarkup(inner)
      ensures quote ==> sectionLevel == old(sectionLevel) && sectionsOpened == old(sectionsOpened) && sectionsClosed == old(sectionsClosed)
      ensures !quote ==>
        out == old(out) + SectionCloses(HeaderCloses(old(sectionLevel), level)) + SectionAnchor(id) + NameMarkup(inner)
      ensures !quote ==>
        sectionLevel == level && sectionsOpened == old(sectionsOpened) + 1 && sectionsClosed == old(sectionsClosed) + HeaderCloses(old(sectionLevel), level)
      ensures !quote && old(Nested()) && 1 <= level ==> HeaderCloses(old(sectionLevel), level) <= old(sectionsOpened) - old(sectionsClosed)
      ensures !quote && old(Nested()) && 1 <= level <= old(sectionLevel) + 1 ==> Nested()
    {
      if quote {
        out := out + "<name>";
        out := out + inner;
        out := out + "</name>\n";
        return;
      }

      if level <= sectionLevel {
        var i := sectionLevel - level + 1;
        ghost var count := i;
        while i > 0
          invariant 0 <= i <= count
          invariant out == old(out) + SectionCloses(count - i)
          invariant sectionsClosed == old(sectionsClosed) + (count - i)
          invariant sectionsOpened == old(sectionsOpened) && sectionLevel == old(sectionLevel)
        {
          out := out + "</section>\n";
          AppendAssoc(old(out), SectionCloses(count - i), SectionClose);
          sectionsClosed := sectionsClosed + 1;
          i := i - 1;
        }
      }
      ghost var closes := out;
      out := out + ("\n<section anchor=\"" + id + "\">\n");
      sectionsOpened := sectionsOpened + 1;
      out := out + "<name>";
      out := out + inner;
      out := out + "</name>\n";
      AppendWrap(closes + SectionAnchor(id), "<name>", inner, "</name>\n");
      sectionLevel := level;
    }

    // ----- Lists and paragraphs -----

    /** Writes the list's opening tag and its items; when the items report
        no output the buffer is cut back to where the list began. */
    method List(inner: string, produced: bool, flags: ListFlags, start: int)
      modifies this`out
      ensures !produced ==> out == old(out)
      ensures produced ==> out == old(out) + Wrap(ListOpenTag(flags, start), inner, ListCloseTag(flags))
    {
      var marker := |out|;
      if flags.ordered {
        if start <= 1 {
          out := out + "<ol>\n";
        } else {
          out := out + ("<ol start=\"" + NatToString(start) + "\">\n");
        }
      } else if flags.definition {
        out := out + "<dl>\n";
      } else {
        out := out + "<ul>\n";
      }

      out := out + inner;
      if !produced {
        out := out[..marker];
        return;
      }
      if flags.ordered {
        out := out + "</ol>\n";
      } else if flags.definition {
        out := out + "</dl>\n";
      } else {
        out := out + "</ul>\n";
      }
    }

    method ListItem(text: string, flags: ListFlags)
      modifies this`out
      ensures out == old(out) + ListItemMarkup(text, flags)
    {
      if flags.definition && !flags.term {
        out := out + "<dd>";
        out := out + text;
        out := out + "</dd>\n";
        return;
      }
      if flags.term {
        out := out + "<dt>";
        out := out + text;
        out := out + "</dt>\n";
        return;
      }
      out := out + "<li>";
      out := out + text;
      out := out + "</li>\n";
    }

    /** Writes `<t>` and the content; when the content reports no output the
        buffer is cut back to where the paragraph began. */
    method Paragraph(inner: string, produced: bool)
      modifies this`out
      ensures !produced ==> out == old(out)
      ensures produced ==> out == old(out) + ParagraphMarkup(inner)
    {
      var marker := |out|;
      out := out + "<t>";
      out := out + inner;
      if !produced {
        out := out[..marker];
        return;
      }
      out := out + "</t>\n";
    }

    // ----- Tables -----

    method Table(header: string, body: string)
      modifies this`out
      ensures out == old(out) + TableMarkup(header, body)
    {
      out := out + "<table>\n<thead>\n";
      out := out + header;
      out := out + "</thead>\n";
      out := out + body;
      out := out + "</table>\n";
    }

    method TableRow(text: string)
      modifies this`out
      ensures out == old(out) + TableRowMarkup(text)
    {
      out := out + "<tr>";
      out := out + text;
      out := out + "</tr>\n";
    }

    method TableHeaderCell(text: string, align: Alignment)
      modifies this`out
      ensures out == old(out) + TableHeaderCellMarkup(text, align)
    {
      var a := "";
      match align {
        case AlignLeft => a := " align=\"left\"";
        case AlignRight => a := " align=\"right\"";
        case _ => a := " align=\"center\"";
      }
      out := out + ("<th" + a + ">");
      out := out + text;
      out := out + "</th>";
    }

    /** The alignment is ignored. */
    method TableCell(text: string, align: Alignment)
      modifies this`out
      ensures out == old(out) + TableCellMarkup(text)
    {
      out := out + "<td>";
      out := out + text;
      out := out + "</td>";
    }

    // ----- Inline emitters -----

    method Index(primary: string, secondary: string)
      modifies this`out
      ensures out == old(out) + IndexMarkup(primary, secondary)
    {
      out := out + ("<iref item=\"" + primary + "\"");
      out := out + (" subitem=\"" + secondary + "\"/>");
    }

    /** The citation's title is ignored. */
    method Citation(link: string, title: string)
      modifies this`out
      ensures out == old(out) + CitationMarkup(link)
    {
      out := out + ("<xref target=\"" + link + "\"/>");
    }

    method AutoLink(link: string, kind: LinkKind)
      modifies this`out
      ensures out == old(out) + AutoLinkMarkup(link, kind)
    {
      out := out + "\\href{";
      if kind == EmailLink {
        out := out + "mailto:";
      }
      assert out == old(out) + AutoLinkTarget(kind);
      out := out + link;
      out := out + "}{";
      out := out + link;
      out := out + "}";
    }

    method CodeSpan(text: string)
      modifies this`out
      ensures out == old(out) + CodeSpanMarkup(convertEntity(text))
    {
      out := out + "<tt>";
      out := out + convertEntity(text);
      out := out + "</tt>";
    }

    method DoubleEmphasis(text: string)
      modifies this`out
      ensures out == old(out) + DoubleEmphasisMarkup(text, words2119)
    {
      if text in words2119 {
        out := out + "<bcp14>";
        out := out + text;
        out := out + "</bcp14>";
        return;
      }
      out := out + "<strong>";
      out := out + text;
      out := out + "</strong>";
    }

    method Emphasis(text: string)
      modifies this`out
      ensures out == old(out) + EmphasisMarkup(text)
    {
      out := out + "<em>";
      out := out + text;
      out := out + "</em>";
    }

    /** The image's title is ignored. */
    method Image(link: string, title: string, alt: string)
      modifies this`out
      ensures out == old(out) + ImageMarkup(link, alt)
    {
      if HasPrefix(link, "http://") || HasPrefix(link, "https://") {
        out := out + "\\href{";
        out := out + link;
        out := out + "}{";
        out := out + alt;
        out := out + "}";
      } else {
        out := out + "\\includegraphics{";
        out := out + link;
        out := out + "}";
      }
    }

    method LineBreak()
      modifies this`out
      ensures out == old(out) + LineBreakMarkup
    {
      out := out + "\n<vspace/>\n";
    }

    /** The link's title is ignored. */
    method Link(link: string, title: string, content: string)
      modifies this`out
      ensures out == old(out) + LinkMarkup(link, content)
    {
      out := out + "\\href{";
      out := out + link;
      out := out + "}{";
      out := out + content;
      out := out + "}";
    }

    method TripleEmphasis(text: string)
      modifies this`out
      ensures out == old(out) + TripleEmphasisMarkup(text)
    {
      out := out + "<strong><em>";
      out := out + text;
      out := out + "</em></strong>";
    }

    /** Struck-through text is written unmarked. */
    method StrikeThrough(text: string)
      modifies this`out
      ensures out == old(out) + text
    {
      out := out + text;
    }

    method Entity(entity: string)
      modifies this`out
      ensures out == old(out) + entity
    {
      out := out + entity;
    }

    method NormalText(text: string)
      modifies this`out
      ensures out == old(out) + text
    {
      out := out + text;
    }

    // ----- Document lifecycle -----

    /** Closes every open section, one tag per level above zero, bringing
        the current level down to zero. */
    method CloseOpenSections()
      modifies this`out, this`sectionLevel, this`sectionsClosed
      ensures out == old(out) + SectionCloses(SectionsToClose(old(sectionLevel)))
      ensures sectionLevel == if old(sectionLevel) > 0 then 0 else old(sectionLevel)
      ensures sectionsClosed == old(sectionsClosed) + SectionsToClose(old(sectionLevel))
    {
      ghost var done: nat := 0;
      var i := sectionLevel;
      while i > 0
        invariant i == sectionLevel
        invariant old(sectionLevel) > 0 ==> i >= 0 && done == old(sectionLevel) - i
        invariant old(sectionLevel) <= 0 ==> i == old(sectionLevel) && done == 0
        invariant out == old(out) + SectionCloses(done)
        invariant sectionsClosed == old(sectionsClosed) + done
      {
        out := out + "</section>\n";
        sectionsClosed := sectionsClosed + 1;
        sectionLevel := sectionLevel - 1;
        i := i - 1;
        done := done + 1;
      }
    }

    /** Appends the include line of every citation of type `typ`. */
    method EmitIncludes(citations: seq<CitationRecord>, typ: char)
      modifies this`out
      ensures out == old(out) + Concat(IncludeLines(citations, typ, referenceFile))
    {
      for k := 0 to |citations|
        invariant out == old(out) + Concat(IncludeLines(citations[..k], typ, referenceFile))
      {
        ghost var lines := IncludeLines(citations[..k], typ, referenceFile);
        assert citations[..k + 1][..k] == citations[..k];
        var c := citations[k];
        if c.typ == typ {
          var f := c.filename;
          if f == "" {
            f := referenceFile(c);
          }
          out := out + ("\t<xi:include href=\"" + f + "\"/>\n");
          ConcatAppendOne(lines, IncludeLine(c, referenceFile));
          AppendAssoc(old(out), Concat(lines), IncludeLine(c, referenceFile));
        } else {
          assert IncludeLines(citations[..k + 1], typ, referenceFile) == lines + [];
          assert lines + [] == lines;
        }
      }
      assert citations[..|citations|] == citations;
    }

    /** On the first call in standalone mode: closes every open section,
        moves into back matter, then writes the informative and the
        normative reference groups. Otherwise does nothing. */
    method References(citations: seq<CitationRecord>, first: bool)
      modifies this`out, this`sectionLevel, this`docLevel, this`sectionsClosed
      ensures !(first && standalone) ==>
        out == old(out) && sectionLevel == old(sectionLevel) && docLevel == old(docLevel) && sectionsClosed == old(sectionsClosed)
      ensures first && standalone ==>
        out == old(out) + SectionCloses(SectionsToClose(old(sectionLevel))) + BackTransition(old(docLevel))
               + ReferenceGroups(citations, referenceFile)
      ensures first && standalone ==>
        docLevel == BackMatter && sectionsClosed == old(sectionsClosed) + SectionsToClose(old(sectionLevel)) &&
        sectionLevel == (if old(sectionLevel) > 0 then 0 else old(sectionLevel))
      ensures first && standalone && old(Nested()) ==> Nested() && sectionLevel == 0 && sectionsClosed == sectionsOpened
    {
      if !first || !standalone {
        return;
      }
      CloseOpenSections();
      MoveToBackMatter();
      WriteReferenceGroups(citations);
    }

    /** The switch of `References` that moves into back matter. */
    method MoveToBackMatter()
      modifies this`out, this`docLevel
      ensures docLevel == BackMatter
      ensures out == old(out) + BackTransition(old(docLevel))
    {
      match docLevel {
        case FrontMatter =>
          out := out + "</front>\n";
          out := out + "<back>\n";
        case MainMatter =>
          out := out + "</middle>\n";
          out := out + "<back>\n";
        case BackMatter =>
      }
      docLevel := BackMatter;
    }

    /** The part of `References` after the move into back matter: counts
        the citations of each type, then writes the informative and the
        normative group, each only when it has a line. */
    method WriteReferenceGroups(citations: seq<CitationRecord>)
      modifies this`out
      ensures out == old(out) + ReferenceGroups(citations, referenceFile)
    {
      var refi, refn := CountReferences(citations);
      ghost var inf := if refi > 0 then Group(InformativeOpen, IncludeLines(citations, Informative, referenceFile)) else "";
      ghost var norm := if refn > 0 then Group(NormativeOpen, IncludeLines(citations, Normative, referenceFile)) else "";
      if refi + refn > 0 {
        if refi > 0 {
          out := out + "<references title=\"Informative References\">\n";
          EmitIncludes(citations, Informative);
          out := out + "</references>\n";
          GroupAppended(old(out), InformativeOpen, IncludeLines(citations, Informative, referenceFile));
        }
        assert out == old(out) + inf;
        if refn > 0 {
          out := out + "<references title=\"Normative References\">\n";
          EmitIncludes(citations, Normative);
          out := out + "</references>\n";
          GroupAppended(old(out) + inf, NormativeOpen, IncludeLines(citations, Normative, referenceFile));
        }
        assert out == old(out) + inf + norm;
        AppendAssoc(old(out), inf, norm);
      }
      assert out == old(out) + ReferenceGroups(citations, referenceFile);
    }

    /** On the first call in standalone mode, writes the XML declaration. */
    method DocumentHeader(first: bool)
      modifies this`out
      ensures !(first && standalone) ==> out == old(out)
      ensures first && standalone ==> out == old(out) + XmlDeclaration
    {
      if !first || !standalone {
        return;
      }
      out := out + "<?xml version=\"1.0\" encoding=\"UTF-8\"?>\n";
    }

    /** On the first call in standalone mode: closes every open section,
        then the open matter container, then the root element. Otherwise
        does nothing. */
    method DocumentFooter(first: bool)
      modifies this`out, this`sectionLevel, this`sectionsClosed
      ensures !(first && standalone) ==>
        out == old(out) && sectionLevel == old(sectionLevel) && sectionsClosed == old(sectionsClosed)
      ensures first && standalone ==>
        out == old(out) + SectionCloses(SectionsToClose(old(sectionLevel))) + MatterClose(docLevel) + RfcClose
      ensures first && standalone ==>
        sectionsClosed == old(sectionsClosed) + SectionsToClose(old(sectionLevel)) &&
        sectionLevel == (if old(sectionLevel) > 0 then 0 else old(sectionLevel))
      ensures first && standalone && old(Nested()) ==> sectionLevel == 0 && sectionsClosed == sectionsOpened
    {
      if !first || !standalone {
        return;
      }
      CloseOpenSections();
      match docLevel {
        case FrontMatter => out := out + "</front>\n";
        case MainMatter => out := out + "</middle>\n";
        case BackMatter => out := out + "</back>\n";
      }
      out := out + "</rfc>\n";
    }

    /** Records the matter `m` and writes the tags that move into it. */
    method DocumentMatter(m: Matter)
      modifies this`out, this`docLevel
      ensures docLevel == m
      ensures out == old(out) + MatterSwitch(m)
    {
      match m {
        case FrontMatter =>
        case MainMatter =>
          out := out + "</front>\n";
          out := out + "<middle>\n";
        case BackMatter =>
          out := out + "</middle>\n";
          out := out + "<back>\n";
      }
      docLevel := m;
    }
  }
}
