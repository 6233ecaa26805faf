/** The front matter that `TitleBlockTOML` writes from the document's TOML
    title block (xml2rfcv2.go:69-111): the `<rfc>` element, the opening of
    `<front>`, then title, date, area, workgroup, keywords and authors. */
module TitleBlock {
  import opened Text

  /** A date whose year, month and day are each written only when positive. */
  datatype Date = Date(year: int, month: int, day: int)

  datatype Author = Author(initials: string, surname: string, fullname: string, role: string, ascii: string)

  datatype Title = Title(
    title: string, abbrev: string, docName: string, category: string, ipr: string,
    area: string, workgroup: string, date: Date,
    keywords: seq<string>, authors: seq<Author>)

  const MonthNames: seq<string> := [
    "January", "February", "March", "April", "May", "June",
    "July", "August", "September", "October", "November", "December"]

  /** Go's `time.Month.String` for a positive month: the English name for
      1 to 12, and a `%!Month(n)` marker for any larger value. */
  function MonthName(m: nat): string
    requires m > 0
  {
    if m <= 12 then MonthNames[m - 1] else "%!Month(" + NatToString(m) + ")"
  }

  function YearAttr(year: int): (r: string)
    ensures year <= 0 <==> r == ""
  {
    if year > 0 then Wrap(" year=\"", NatToString(year), "\"") else ""
  }

  function MonthAttr(month: int): (r: string)
    ensures month <= 0 <==> r == ""
  {
    if month > 0 then Wrap(" month=\"", MonthName(month), "\"") else ""
  }

  function DayAttr(day: int): (r: string)
    ensures day <= 0 <==> r == ""
  {
    if day > 0 then Wrap(" day=\"", NatToString(day), "\"") else ""
  }

  /** The `<date>` element holding the year, month and day attributes. */
  function DateElement(d: Date): string {
    "<date" + YearAttr(d.year) + MonthAttr(d.month) + DayAttr(d.day) + "/>\n\n"
  }

  /** A positive year or day is written as an attribute whose value reads
      back as the same number; a positive month carries its name. */
  lemma DateAttributesReadBack(d: Date)
    ensures d.year > 0 ==>
              Unwrap(YearAttr(d.year), " year=\"", "\"") == Some(NatToString(d.year)) &&
              ParseDecimal(NatToString(d.year)) == d.year
    ensures d.month > 0 ==> Unwrap(MonthAttr(d.month), " month=\"", "\"") == Some(MonthName(d.month))
    ensures d.day > 0 ==>
              Unwrap(DayAttr(d.day), " day=\"", "\"") == Some(NatToString(d.day)) &&
              ParseDecimal(NatToString(d.day)) == d.day
    ensures Unwrap(DateElement(d), "<date", "/>\n\n") == Some(YearAttr(d.year) + MonthAttr(d.month) + DayAttr(d.day))
  {
    if d.year > 0 {
      UnwrapWrap(" year=\"", NatToString(d.year), "\"");
      ParseNatToString(d.year);
    }
    if d.month > 0 {
      UnwrapWrap(" month=\"", MonthName(d.month), "\"");
    }
    if d.day > 0 {
      UnwrapWrap(" day=\"", NatToString(d.day), "\"");
      ParseNatToString(d.day);
    }
    var attrs := YearAttr(d.year) + MonthAttr(d.month) + DayAttr(d.day);
    AppendAssoc("<date", YearAttr(d.year), MonthAttr(d.month));
    AppendAssoc("<date", YearAttr(d.year) + MonthAttr(d.month), DayAttr(d.day));
    assert DateElement(d) == Wrap("<date", attrs, "/>\n\n");
    UnwrapWrap("<date", attrs, "/>\n\n");
  }

  /** The root element's opening tag with its namespace, `ipr`,
      `category` and `docName`. */
  function RootOpen(t: Title): string {
    "<rfc xmlns:xi=\"http://www.w3.org/2001/XInclude\" ipr=\"" + t.ipr + "\" category=\"" +
    t.category + "\" docName=\"" + t.docName + "\">\n"
  }

  function TitleElement(t: Title): string {
    ("<title abbrev=\"" + t.abbrev + "\">") + (t.title + "</title>\n\n")
  }

  function AreaElement(t: Title): string {
    "<area>" + t.area + "</area>\n"
  }

  function WorkgroupElement(t: Title): string {
    "<workgroup>" + t.workgroup + "</workgroup>\n"
  }

  /** Everything before the keywords: the root element, the front matter
      opening, the title and its abbreviation, the date, the area and the
      workgroup. */
  function TitleHead(t: Title): string {
    RootOpen(t) + "<front>\n" + TitleElement(t) + DateElement(t.date) + AreaElement(t) + WorkgroupElement(t)
  }

  function KeywordElement(k: string): string {
    "<keyword>" + k + "</keyword>\n"
  }

  function AuthorElement(a: Author): string {
    "<author>\n" +
    ("<initials>" + a.initials + "</initials>\n") +
    ("<surname>" + a.surname + "</surname>\n") +
    ("<fullname>" + a.fullname + "</fullname>\n") +
    ("<role>" + a.role + "</role>\n") +
    ("<ascii>" + a.ascii + "</ascii>\n") +
    "</author>\n"
  }

  /** One keyword element per keyword, in the title block's order. */
  function KeywordsMarkup(ks: seq<string>): string {
    if ks == [] then "" else KeywordsMarkup(ks[..|ks| - 1]) + KeywordElement(ks[|ks| - 1])
  }

  /** One author element per author, in the title block's order. */
  function AuthorsMarkup(authors: seq<Author>): string {
    if authors == [] then "" else AuthorsMarkup(authors[..|authors| - 1]) + AuthorElement(authors[|authors| - 1])
  }

  /** The whole text `TitleBlockTOML` writes in standalone mode. */
  function TitleMarkup(t: Title): string {
    TitleHead(t) + KeywordsMarkup(t.keywords) + AuthorsMarkup(t.authors) + "\n"
  }
}
