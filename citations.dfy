/** Citations collected by the parser and the reference groups `References`
    writes from them (xml2rfcv2.go:314-353).

    The source holds the citations in a map keyed by the citation's
    target, and ranges over it three times in an order the language leaves
    unspecified. Here they are a sequence, standing for one such order; the
    lemmas on permutations show that what is written does not depend on
    it except for the order of the lines inside a group. */
module Citations {
  import opened Text

  /** A citation: its target, its type byte (`'i'` informative, `'n'`
      normative, anything else neither) and an explicit file name, empty
      when there is none. */
  datatype CitationRecord = CitationRecord(link: string, typ: char, filename: string)

  const Informative: char := 'i'
  const Normative: char := 'n'

  /** The number of citations of type `typ`. */
  function Count(cs: seq<CitationRecord>, typ: char): nat {
    if cs == [] then 0
    else Count(cs[..|cs| - 1], typ) + (if cs[|cs| - 1].typ == typ then 1 else 0)
  }

  /** There is a citation of type `typ` exactly when its count is positive. */
  lemma {:induction false} CountPositive(cs: seq<CitationRecord>, typ: char)
    ensures Count(cs, typ) > 0 <==> exists i :: 0 <= i < |cs| && cs[i].typ == typ
  {
    if cs != [] {
      var init := cs[..|cs| - 1];
      CountPositive(init, typ);
      if exists i :: 0 <= i < |init| && init[i].typ == typ {
        var i :| 0 <= i < |init| && init[i].typ == typ;
        assert cs[i].typ == typ;
      }
      if exists i :: 0 <= i < |cs| && cs[i].typ == typ {
        var i :| 0 <= i < |cs| && cs[i].typ == typ;
        if i < |init| {
          assert init[i].typ == typ;
        }
      }
    }
  }

  /** The first loop of `References`: both counts in one pass. */
  method CountReferences(cs: seq<CitationRecord>) returns (refi: nat, refn: nat)
    ensures refi == Count(cs, Informative)
    ensures refn == Count(cs, Normative)
  {
    refi, refn := 0, 0;
    for k := 0 to |cs|
      invariant refi == Count(cs[..k], Informative)
      invariant refn == Count(cs[..k], Normative)
    {
      assert cs[..k + 1][..k] == cs[..k];
      var c := cs[k];
      if c.typ == Informative {
        refi := refi + 1;
      }
      if c.typ == Normative {
        refn := refn + 1;
      }
    }
    assert cs[..|cs|] == cs;
  }

  /** The file a citation is included from: its own file name when it has
      one, otherwise the name the naming convention derives from it. */
  function Href(c: CitationRecord, referenceFile: CitationRecord -> string): (r: string)
    ensures c.filename != "" ==> r == c.filename
    ensures c.filename == "" ==> r == referenceFile(c)
  {
    var f := c.filename;
    if f == "" then referenceFile(c) else f
  }

  /** The include line written for one citation. */
  function IncludeLine(c: CitationRecord, referenceFile: CitationRecord -> string): string {
    "\t<xi:include href=\"" + Href(c, referenceFile) + "\"/>\n"
  }

  /** The include lines of the citations of type `typ`, in the order of `cs`:
      exactly one per such citation. */
  function IncludeLines(cs: seq<CitationRecord>, typ: char, referenceFile: CitationRecord -> string): (r: seq<string>)
    ensures |r| == Count(cs, typ)
  {
    if cs == [] then []
    else
      var c := cs[|cs| - 1];
      IncludeLines(cs[..|cs| - 1], typ, referenceFile) + (if c.typ == typ then [IncludeLine(c, referenceFile)] else [])
  }

  lemma {:induction false} IncludeLinesAppend(a: seq<CitationRecord>, b: seq<CitationRecord>, typ: char,
                                              referenceFile: CitationRecord -> string)
    ensures IncludeLines(a + b, typ, referenceFile) == IncludeLines(a, typ, referenceFile) + IncludeLines(b, typ, referenceFile)
    decreases |b|
  {
    if b == [] {
      assert a + b == a;
    } else {
      var init := b[..|b| - 1];
      IncludeLinesAppend(a, init, typ, referenceFile);
      assert (a + b)[..|a + b| - 1] == a + init;
    }
  }

  /** Every citation of type `typ` has its include line among the lines,
      and every line is the include line of such a citation. */
  lemma {:induction false} IncludeLinesMembership(cs: seq<CitationRecord>, typ: char,
                                                  referenceFile: CitationRecord -> string)
    ensures forall c :: c in cs && c.typ == typ ==> IncludeLine(c, referenceFile) in IncludeLines(cs, typ, referenceFile)
    ensures forall x :: x in IncludeLines(cs, typ, referenceFile) ==>
              exists c :: c in cs && c.typ == typ && x == IncludeLine(c, referenceFile)
  {
    if cs != [] {
      var init := cs[..|cs| - 1];
      var last := cs[|cs| - 1];
      IncludeLinesMembership(init, typ, referenceFile);
      assert cs == init + [last];
      forall c | c in cs && c.typ == typ
        ensures IncludeLine(c, referenceFile) in IncludeLines(cs, typ, referenceFile)
      {
        if c != last {
          assert c in init;
        }
      }
      forall x | x in IncludeLines(cs, typ, referenceFile)
        ensures exists c :: c in cs && c.typ == typ && x == IncludeLine(c, referenceFile)
      {
        if x in IncludeLines(init, typ, referenceFile) {
          var c :| c in init && c.typ == typ && x == IncludeLine(c, referenceFile);
          assert c in cs;
        } else {
          assert last in cs;
        }
      }
    }
  }

  /** Taking one citation out of a sequence takes its include lines out of
      the multiset of lines. */
  lemma IncludeLinesRemoveAt(ds: seq<CitationRecord>, k: nat, typ: char, referenceFile: CitationRecord -> string)
    requires k < |ds|
    ensures multiset(IncludeLines(ds, typ, referenceFile))
            == multiset(IncludeLines(ds[..k] + ds[k + 1..], typ, referenceFile))
               + multiset(IncludeLines([ds[k]], typ, referenceFile))
  {
    var before, after := ds[..k], ds[k + 1..];
    assert ds == before + [ds[k]] + after;
    IncludeLinesAppend(before, [ds[k]], typ, referenceFile);
    IncludeLinesAppend(before + [ds[k]], after, typ, referenceFile);
    IncludeLinesAppend(before, after, typ, referenceFile);
  }

  /** Removing the last citation of `cs` and one occurrence of it from
      `ds` leaves two sequences that are still reorderings of each other. */
  lemma RemoveMatching(cs: seq<CitationRecord>, ds: seq<CitationRecord>, k: nat)
    requires multiset(cs) == multiset(ds) && cs != [] && k < |ds| && ds[k] == cs[|cs| - 1]
    ensures multiset(cs[..|cs| - 1]) == multiset(ds[..k] + ds[k + 1..])
  {
    var c := cs[|cs| - 1];
    var init, rest := cs[..|cs| - 1], ds[..k] + ds[k + 1..];
    assert cs == init + [c];
    assert ds == ds[..k] + [c] + ds[k + 1..];
    assert multiset(ds) == multiset(rest) + multiset{c};
    assert multiset(cs) == multiset(init) + multiset{c};
    assert multiset(init) == multiset(cs) - multiset{c};
    assert multiset(rest) == multiset(ds) - multiset{c};
  }

  /** The order in which the citations are visited does not matter: any
      reordering gives the same counts and the same include lines, as a
      multiset. */
  lemma {:induction false} IncludeLinesPermutation(cs: seq<CitationRecord>, ds: seq<CitationRecord>, typ: char,
                                                   referenceFile: CitationRecord -> string)
    requires multiset(cs) == multiset(ds)
    ensures multiset(IncludeLines(cs, typ, referenceFile)) == multiset(IncludeLines(ds, typ, referenceFile))
    ensures Count(cs, typ) == Count(ds, typ)
    decreases |cs|
  {
    if cs == [] {
      assert |multiset(ds)| == 0;
      assert ds == [];
    } else {
      var n := |cs|;
      var c := cs[n - 1];
      var init := cs[..n - 1];
      assert c in multiset(ds);
      var k :| 0 <= k < |ds| && ds[k] == c;
      var rest := ds[..k] + ds[k + 1..];
      RemoveMatching(cs, ds, k);
      IncludeLinesPermutation(init, rest, typ, referenceFile);
      IncludeLinesRemoveAt(ds, k, typ, referenceFile);
      IncludeLinesAppend(init, [c], typ, referenceFile);
      assert init + [c] == cs;
      var lc, ld := IncludeLines(cs, typ, referenceFile), IncludeLines(ds, typ, referenceFile);
      assert multiset(lc) == multiset(ld);
      assert |multiset(lc)| == |lc| && |multiset(ld)| == |ld|;
    }
  }

  /** The opening tags of the two reference groups, and their common close. */
  const InformativeOpen := "<references title=\"Informative References\">\n"
  const NormativeOpen := "<references title=\"Normative References\">\n"
  const ReferencesClose := "</references>\n"

  /** A reference group holding the given include lines. */
  function Group(open: string, lines: seq<string>): string {
    Wrap(open, Concat(lines), ReferencesClose)
  }

  /** Writing a group's opening tag, its lines and its close one after the
      other appends the group. */
  lemma GroupAppended(s: string, open: string, lines: seq<string>)
    ensures s + open + Concat(lines) + ReferencesClose == s + Group(open, lines)
  {
    AppendAssoc(s, open, Concat(lines));
    AppendAssoc(s, open + Concat(lines), ReferencesClose);
  }

  /** A group, or nothing when it would hold no line. */
  function GroupIfAny(open: string, lines: seq<string>): string {
    if lines == [] then "" else Group(open, lines)
  }

  /** A group's include lines are written unchanged between its tags. */
  lemma GroupKeepsLines(open: string, lines: seq<string>)
    ensures Unwrap(Group(open, lines), open, ReferencesClose) == Some(Concat(lines))
  {
    UnwrapWrap(open, Concat(lines), ReferencesClose);
  }

  /** The reference groups `References` writes after moving into back
      matter: the informative group, then the normative group, each only
      when some citation has its type, and nothing at all when no citation
      has either type. */
  function ReferenceGroups(cs: seq<CitationRecord>, referenceFile: CitationRecord -> string): (r: string)
    ensures r == GroupIfAny(InformativeOpen, IncludeLines(cs, Informative, referenceFile))
               + GroupIfAny(NormativeOpen, IncludeLines(cs, Normative, referenceFile))
    ensures r == "" <==> Count(cs, Informative) == 0 && Count(cs, Normative) == 0
  {
    var refi, refn := Count(cs, Informative), Count(cs, Normative);
    if refi + refn > 0 then
      (if refi > 0 then Group(InformativeOpen, IncludeLines(cs, Informative, referenceFile)) else "") +
      (if refn > 0 then Group(NormativeOpen, IncludeLines(cs, Normative, referenceFile)) else "")
    else ""
  }

  /** The group of a type is written exactly when some citation has that
      type, and then it holds one include line per such citation, in the
      order of the citations. */
  lemma GroupWrittenIffCited(cs: seq<CitationRecord>, typ: char, open: string, referenceFile: CitationRecord -> string)
    ensures GroupIfAny(open, IncludeLines(cs, typ, referenceFile)) != "" <==>
            exists i :: 0 <= i < |cs| && cs[i].typ == typ
    ensures |IncludeLines(cs, typ, referenceFile)| == Count(cs, typ)
  {
    CountPositive(cs, typ);
  }

  /** Reordering the citations changes neither which groups are written
      nor how many lines each holds. */
  lemma ReferenceGroupsShapeIndependentOfOrder(cs: seq<CitationRecord>, ds: seq<CitationRecord>,
                                                referenceFile: CitationRecord -> string)
    requires multiset(cs) == multiset(ds)
    ensures (ReferenceGroups(cs, referenceFile) == "") == (ReferenceGroups(ds, referenceFile) == "")
    ensures multiset(IncludeLines(cs, Informative, referenceFile)) == multiset(IncludeLines(ds, Informative, referenceFile))
    ensures multiset(IncludeLines(cs, Normative, referenceFile)) == multiset(IncludeLines(ds, Normative, referenceFile))
  {
    IncludeLinesPermutation(cs, ds, Informative, referenceFile);
    IncludeLinesPermutation(cs, ds, Normative, referenceFile);
  }
}
