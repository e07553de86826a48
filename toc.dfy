/** `_extract_table_of_contents`: a first pass gathers the numbered `##`
    sections and the `### n.m` subsections under them, a second pass numbers
    them again from 3 and gives every entry the next page, from page 4. */
module TableOfContents {
  import opened Wrappers
  import opened Text
  import Seqs

  /** An entry of `table_of_contents`. */
  datatype TocItem = TocItem(number: string, title: string, page: nat)

  /** An entry of `sections_found` and of its `subsections`. */
  datatype Subsection = Subsection(subNumber: nat, title: string)
  datatype Section = Section(originalNumber: nat, title: string, subsections: seq<Subsection>)

  /** `(\d+)\.` at the start of `body`: the number and what follows the dot. */
  function NumberDot(body: string): Option<(nat, string)> {
    var d := DigitPrefix(body);
    if d == 0 || d == |body| || body[d] != '.' then None
    else Some((DigitsValue(body[..d]), body[d + 1..]))
  }

  /** `(\d+)\s*(.+)` at the start of `body`, the title stripped. When nothing
      follows the number, the regular expression gives its last digit to
      `.+`: "12" is number 1 titled "2". */
  function NumberTitle(body: string): Option<(nat, string)> {
    var d := DigitPrefix(body);
    var rest := body[d..];
    if d == 0 then None
    else if rest != [] then Some((DigitsValue(body[..d]), Strip(rest)))
    else if d >= 2 then Some((DigitsValue(body[..d - 1]), body[d - 1..]))
    else None
  }

  /** `re.match(r'## (\d+)\.\s*(.+)', line)`: the number and the title once
      stripped. `.+` needs at least one character after the dot; whatever
      `\s*` leaves to it, the stripped group is the stripped remainder. */
  function MainHeading(line: string): Option<(nat, string)> {
    if |line| < 3 || line[0] != '#' || line[1] != '#' || line[2] != ' ' then None
    else
      match NumberDot(line[3..])
      case Some((n, rest)) => if rest == [] then None else Some((n, Strip(rest)))
      case None => None
  }

  /** `re.match(r'### (\d+)\.(\d+)\s*(.+)', line)`. */
  function SubHeading(line: string): Option<(nat, nat, string)> {
    if |line| < 4 || line[0] != '#' || line[1] != '#' || line[2] != '#' || line[3] != ' ' then None
    else
      match NumberDot(line[4..])
      case Some((m, after)) =>
        (match NumberTitle(after)
         case Some((k, title)) => Some((m, k, title))
         case None => None)
      case None => None
  }

  /** Index of the first section numbered `n`; `|sections|` when there is none. */
  function FirstNumbered(sections: seq<Section>, n: nat): (r: nat)
    ensures r <= |sections|
    ensures r < |sections| ==> sections[r].originalNumber == n
    ensures forall q :: 0 <= q < r ==> sections[q].originalNumber != n
  {
    if sections == [] then 0
    else if sections[0].originalNumber == n then 0
    else 1 + FirstNumbered(sections[1..], n)
  }

  /** The subsection goes under the first section with its main number, and
      nowhere when there is none. */
  function Attach(sections: seq<Section>, main: nat, sub: Subsection): seq<Section> {
    var k := FirstNumbered(sections, main);
    if k == |sections| then sections
    else sections[k := sections[k].(subsections := sections[k].subsections + [sub])]
  }

  /** The first index holding `n` is the one `FirstNumbered` finds. */
  lemma FirstNumberedUnique(sections: seq<Section>, n: nat, j: nat)
    requires j <= |sections|
    requires j < |sections| ==> sections[j].originalNumber == n
    requires forall q :: 0 <= q < j ==> sections[q].originalNumber != n
    ensures j == FirstNumbered(sections, n)
  {
  }

  /** One line of the first pass, stripped. */
  function Collect(sections: seq<Section>, line: string): seq<Section> {
    var withMain :=
      match MainHeading(line)
      case Some((n, title)) => if n >= 1 then sections + [Section(n, title, [])] else sections
      case None => sections;
    match SubHeading(line)
    case Some((m, k, title)) => Attach(withMain, m, Subsection(k, title))
    case None => withMain
  }

  /** `sections_found` after the first pass over the stripped lines. */
  function Sections(lines: seq<string>): seq<Section> {
    if lines == [] then [] else Collect(Sections(lines[..|lines| - 1]), lines[|lines| - 1])
  }

  /** `section_mappings`, key and value; every key maps to itself. */
  const SectionMappings: seq<(string, string)> := [
    ("INFORMASI DOKUMEN", "INFORMASI DOKUMEN"),
    ("PERSYARATAN UMUM", "PERSYARATAN UMUM"),
    ("OBJEK SAP EXISTING YANG TERKAIT DENGAN REPORT (Existing SAP Object Related to the Reports)",
     "OBJEK SAP EXISTING YANG TERKAIT DENGAN REPORT (Existing SAP Object Related to the Reports)"),
    ("DESAIN", "DESAIN"),
    ("Selection Screen", "Selection Screen"),
    ("Detail Processing", "Detail Processing"),
    ("Detail Process Only valid datasets", "Detail Process Only valid datasets"),
    ("Form Get_Country_Info", "Form Get_Country_Info"),
    ("Form Get_Currency_T500C", "Form Get_Currency_T500C"),
    ("Form Get_Currency_T001", "Form Get_Currency_T001"),
    ("PENANGANAN ERROR", "PENANGANAN ERROR"),
    ("DESAIN ALTERNATIF", "DESAIN ALTERNATIF"),
    ("PERSYARATAN PENGUJIAN", "PERSYARATAN PENGUJIAN"),
    ("PERUBAHAN DESAIN", "PERUBAHAN DESAIN")
  ]

  /** `dict.get(key, default)` on a dictionary given by its pairs. */
  function Lookup(pairs: seq<(string, string)>, key: string, default: string): string {
    if pairs == [] then default
    else if pairs[0].0 == key then pairs[0].1
    else Lookup(pairs[1..], key, default)
  }

  /** The keys of a dictionary given by its pairs. */
  function Keys(pairs: seq<(string, string)>): set<string> {
    set p | p in pairs :: p.0
  }

  /** A main title is looked up upper-cased, a subsection title as it is. */
  function MainTitle(mappings: seq<(string, string)>, title: string): string {
    Lookup(mappings, Upper(title), title)
  }

  function SubTitle(mappings: seq<(string, string)>, title: string): string {
    Lookup(mappings, title, title)
  }

  const FixedItems: seq<TocItem> := [TocItem("1", "INFORMASI DOKUMEN", 2), TocItem("2", "DAFTAR ISI", 3)]

  /** The entries of the first subsections of a main section numbered
      `number`, from page `page` on. */
  function SubEntries(mappings: seq<(string, string)>, number: string, subs: seq<Subsection>, page: nat): seq<TocItem> {
    if subs == [] then []
    else
      var n := |subs| - 1;
      SubEntries(mappings, number, subs[..n], page) + [TocItem(number + "." + NatToString(n + 1), SubTitle(mappings, subs[n].title), page + n)]
  }

  /** The entries of one section: itself, then its subsections. */
  function Block(mappings: seq<(string, string)>, counter: nat, section: Section, page: nat): seq<TocItem> {
    [TocItem(NatToString(counter), MainTitle(mappings, section.title), page)]
      + SubEntries(mappings, NatToString(counter), section.subsections, page + 1)
  }

  /** The number of entries the sections take. */
  function Size(sections: seq<Section>): nat {
    if sections == [] then 0
    else Size(sections[..|sections| - 1]) + 1 + |sections[|sections| - 1].subsections|
  }

  /** The second pass: section `k` (from 0) is numbered `3 + k`. */
  function Entries(mappings: seq<(string, string)>, sections: seq<Section>): seq<TocItem> {
    if sections == [] then []
    else
      var n := |sections| - 1;
      Entries(mappings, sections[..n]) + Block(mappings, 3 + n, sections[n], 4 + Size(sections[..n]))
  }

  lemma EntriesStep(mappings: seq<(string, string)>, sections: seq<Section>, k: nat)
    requires k < |sections|
    ensures Entries(mappings, sections[..k + 1])
      == Entries(mappings, sections[..k]) + Block(mappings, 3 + k, sections[k], 4 + Size(sections[..k]))
    ensures Size(sections[..k + 1]) == Size(sections[..k]) + 1 + |sections[k].subsections|
  {
    assert sections[..k + 1][..k] == sections[..k];
  }

  /** The table of contents of the (unstripped) lines. */
  function Toc(lines: seq<string>): seq<TocItem> {
    FixedItems + Entries(SectionMappings, Sections(Seqs.Map(Strip, lines)))
  }

  /** `_extract_table_of_contents`. */
  method ExtractTableOfContents(lines: seq<string>) returns (toc: seq<TocItem>)
    ensures toc == Toc(lines)
  {
    var sectionsFound := CollectSections(lines);
    toc := NumberSections(SectionMappings, sectionsFound);
  }

  /** The first pass of `_extract_table_of_contents`. */
  method CollectSections(lines: seq<string>) returns (sectionsFound: seq<Section>)
    ensures sectionsFound == Sections(Seqs.Map(Strip, lines))
  {
    ghost var stripped := Seqs.Map(Strip, lines);
    sectionsFound := [];
    for i := 0 to |lines|
      invariant sectionsFound == Sections(stripped[..i])
    {
      var line := Strip(lines[i]);
      assert stripped[..i + 1][..i] == stripped[..i];
      assert Sections(stripped[..i + 1]) == Collect(sectionsFound, line);
      sectionsFound := CollectLine(sectionsFound, line);
    }
    assert stripped[..|lines|] == stripped;
  }

  /** The body of the first pass for one stripped line. */
  method CollectLine(sections: seq<Section>, line: string) returns (sectionsFound: seq<Section>)
    ensures sectionsFound == Collect(sections, line)
  {
    sectionsFound := sections;
    var main := MainHeading(line);
    if main.Some? {
      var (sectionNum, originalTitle) := main.value;
      if sectionNum >= 1 {
        sectionsFound := sectionsFound + [Section(sectionNum, originalTitle, [])];
      }
    }
    var sub := SubHeading(line);
    if sub.Some? {
      var (mainNum, subNum, originalTitle) := sub.value;
      var j := FindSection(sectionsFound, mainNum);
      if j < |sectionsFound| {
        var section := sectionsFound[j];
        sectionsFound := sectionsFound[j := section.(subsections := section.subsections + [Subsection(subNum, originalTitle)])];
      }
    }
  }

  /** The inner loop of the second pass: one entry per subsection, on
      consecutive pages from `page`. */
  method SubsectionItems(sectionMappings: seq<(string, string)>, number: string, subsections: seq<Subsection>, page: nat)
    returns (items: seq<TocItem>)
    ensures items == SubEntries(sectionMappings, number, subsections, page)
  {
    items := [];
    var pageNumber := page;
    for i := 0 to |subsections|
      invariant items == SubEntries(sectionMappings, number, subsections[..i], page)
      invariant pageNumber == page + i
    {
      var subsection := subsections[i];
      assert subsections[..i + 1][..i] == subsections[..i];
      items := items + [TocItem(number + "." + NatToString(i + 1), Lookup(sectionMappings, subsection.title, subsection.title), pageNumber)];
      pageNumber := pageNumber + 1;
    }
    assert subsections[..|subsections|] == subsections;
  }

  /** The search for the main section a subsection belongs to. */
  method FindSection(sectionsFound: seq<Section>, mainNum: nat) returns (j: nat)
    ensures j == FirstNumbered(sectionsFound, mainNum)
  {
    j := 0;
    while j < |sectionsFound| && sectionsFound[j].originalNumber != mainNum
      invariant j <= |sectionsFound|
      invariant forall q :: 0 <= q < j ==> sectionsFound[q].originalNumber != mainNum
    {
      j := j + 1;
    }
    FirstNumberedUnique(sectionsFound, mainNum, j);
  }

  /** The second pass of `_extract_table_of_contents`, given
      `section_mappings`. */
  method NumberSections(sectionMappings: seq<(string, string)>, sectionsFound: seq<Section>) returns (toc: seq<TocItem>)
    ensures toc == FixedItems + Entries(sectionMappings, sectionsFound)
  {
    toc := [TocItem("1", "INFORMASI DOKUMEN", 2), TocItem("2", "DAFTAR ISI", 3)];
    var pageNumber := 4;
    var sectionCounter := 3;
    for k := 0 to |sectionsFound|
      invariant toc == FixedItems + Entries(sectionMappings, sectionsFound[..k])
      invariant sectionCounter == 3 + k && pageNumber == 4 + Size(sectionsFound[..k])
    {
      var section := sectionsFound[k];
      EntriesStep(sectionMappings, sectionsFound, k);
      toc := toc + [TocItem(NatToString(sectionCounter), Lookup(sectionMappings, Upper(section.title), section.title), pageNumber)];
      var currentMainSection := sectionCounter;
      pageNumber := pageNumber + 1;
      var subItems := SubsectionItems(sectionMappings, NatToString(currentMainSection), section.subsections, pageNumber);
      toc := toc + subItems;
      pageNumber := pageNumber + |section.subsections|;
      sectionCounter := sectionCounter + 1;
    }
    assert sectionsFound[..|sectionsFound|] == sectionsFound;
  }

  /* ---------- what the first pass collects ---------- */

  /** A number followed by a dot and the rest. */
  lemma NumberDotReads(m: nat, rest: string)
    ensures NumberDot(NatToString(m) + ("." + rest)) == Some((m, rest))
  {
    var major := NatToString(m);
    var body := major + ("." + rest);
    var d := |major|;
    DigitPrefixOfNumber(major, "." + rest);
    assert body[..d] == major;
    DigitsValueOfNat(m);
    assert body[d..] == "." + rest;
    assert body[d + 1..] == body[d..][1..];
  }

  /** A number followed by a space and a title. */
  lemma NumberTitleReads(k: nat, title: string)
    requires title != [] && Stripped(title)
    ensures NumberTitle(NatToString(k) + (" " + title)) == Some((k, title))
  {
    var minor := NatToString(k);
    var body := minor + (" " + title);
    DigitPrefixOfNumber(minor, " " + title);
    assert body[..|minor|] == minor;
    DigitsValueOfNat(k);
    assert body[|minor|..] == " " + title;
    SpacedTitle(title);
  }

  /** A title after one space strips back to itself. */
  lemma SpacedTitle(title: string)
    requires Stripped(title)
    ensures Strip(" " + title) == title
  {
    LStripLeadingSpace(title);
    StripStripped(title);
  }

  /** A main heading as the renderer writes it (`## `, the number, `. `
      and the title) reads back as its number and title. */
  lemma MainHeadingReadsRendered(line: string, n: nat, title: string)
    requires title != [] && Stripped(title)
    requires |line| >= 3 && line[..3] == "## " && line[3..] == NatToString(n) + ("." + (" " + title))
    ensures MainHeading(line) == Some((n, title))
  {
    NumberDotReads(n, " " + title);
    SpacedTitle(title);
    assert line[0] == line[..3][0] && line[1] == line[..3][1] && line[2] == line[..3][2];
  }

  /** A subsection heading as written (`### `, the two numbers joined by a
      dot, a space and the title) reads back as its numbers and title. */
  lemma {:induction false} SubHeadingReadsRendered(line: string, m: nat, k: nat, title: string)
    requires title != [] && Stripped(title)
    requires |line| >= 4 && line[..4] == "### " && line[4..] == NatToString(m) + ("." + (NatToString(k) + (" " + title)))
    ensures SubHeading(line) == Some((m, k, title))
  {
    NumberDotReads(m, NatToString(k) + (" " + title));
    NumberTitleReads(k, title);
    assert line[0] == line[..4][0] && line[1] == line[..4][1] && line[2] == line[..4][2] && line[3] == line[..4][3];
  }

  /** With no title, the regular expression takes the last digit of the
      subsection number as the title; one digit alone does not match. */
  lemma SubHeadingWithoutTitle()
    ensures NumberTitle("12") == Some((1, "2"))
    ensures NumberTitle("2") == None
  {
    assert DigitPrefix("12") == 2 by {
      assert "12"[1..] == "2";
      assert "2"[1..] == "";
    }
    assert "12"[..1] == "1" && "1"[..0] == "";
    assert DigitPrefix("2") == 1 by {
      assert "2"[1..] == "";
    }
  }

  /** A numbered `##` heading opens a section, unless its number is 0. */
  lemma MainHeadingCollected(sections: seq<Section>, line: string, n: nat, title: string)
    requires MainHeading(line) == Some((n, title))
    ensures Collect(sections, line) == if n >= 1 then sections + [Section(n, title, [])] else sections
  {
  }

  /** A subsection goes under the first section with its main number only. */
  lemma SubsectionJoinsFirstMatch(sections: seq<Section>, line: string, m: nat, sub: nat, title: string, k: nat)
    requires SubHeading(line) == Some((m, sub, title))
    requires k < |sections| && sections[k].originalNumber == m
    requires forall q :: 0 <= q < k ==> sections[q].originalNumber != m
    ensures Collect(sections, line) == sections[k := sections[k].(subsections := sections[k].subsections + [Subsection(sub, title)])]
  {
    FirstNumberedUnique(sections, m, k);
  }

  /** A subsection whose main section has not been seen is dropped. */
  lemma OrphanSubsectionDropped(sections: seq<Section>, line: string, m: nat, sub: nat, title: string)
    requires SubHeading(line) == Some((m, sub, title))
    requires forall q :: 0 <= q < |sections| ==> sections[q].originalNumber != m
    ensures Collect(sections, line) == sections
  {
    FirstNumberedUnique(sections, m, |sections|);
  }

  /* ---------- what the second pass numbers ---------- */

  /** Looking a key up in pairs that each map a key to itself gives the key
      when it is there and the default when it is not. */
  lemma {:induction false} LookupIdentity(pairs: seq<(string, string)>, key: string, default: string)
    requires forall i :: 0 <= i < |pairs| ==> pairs[i].0 == pairs[i].1
    ensures Lookup(pairs, key, default) == if key in Keys(pairs) then key else default
  {
    if pairs != [] {
      LookupIdentity(pairs[1..], key, default);
      assert Keys(pairs) == {pairs[0].0} + Keys(pairs[1..]) by {
        assert forall p :: p in pairs <==> p == pairs[0] || p in pairs[1..];
      }
    }
  }

  /** `section_mappings` maps every key to itself. */
  lemma SectionMappingsIdentity()
    ensures forall i :: 0 <= i < |SectionMappings| ==> SectionMappings[i].0 == SectionMappings[i].1
  {
  }

  /** With a mapping from each key to itself, a subsection title is kept and
      a main title is kept or upper-cased. */
  lemma MappingKeepsTitles(mappings: seq<(string, string)>, title: string)
    requires forall i :: 0 <= i < |mappings| ==> mappings[i].0 == mappings[i].1
    ensures SubTitle(mappings, title) == title
    ensures MainTitle(mappings, title) == if Upper(title) in Keys(mappings) then Upper(title) else title
  {
    LookupIdentity(mappings, title, title);
    LookupIdentity(mappings, Upper(title), title);
  }

  lemma {:induction false} SubEntriesShape(mappings: seq<(string, string)>, number: string, subs: seq<Subsection>, page: nat)
    requires forall i :: 0 <= i < |mappings| ==> mappings[i].0 == mappings[i].1
    ensures |SubEntries(mappings, number, subs, page)| == |subs|
    ensures forall i :: 0 <= i < |subs| ==>
      SubEntries(mappings, number, subs, page)[i] == TocItem(number + "." + NatToString(i + 1), subs[i].title, page + i)
  {
    if subs != [] {
      var n := |subs| - 1;
      SubEntriesShape(mappings, number, subs[..n], page);
      assert forall i :: 0 <= i < n ==> subs[..n][i] == subs[i];
      MappingKeepsTitles(mappings, subs[n].title);
    }
  }

  /** Every entry is on the page after the one before, from `start`. */
  predicate PagesFrom(items: seq<TocItem>, start: nat) {
    forall j :: 0 <= j < |items| ==> items[j].page == start + j
  }

  lemma PagesAppend(a: seq<TocItem>, b: seq<TocItem>, start: nat)
    requires PagesFrom(a, start) && PagesFrom(b, start + |a|)
    ensures PagesFrom(a + b, start)
  {
    assert forall j :: |a| <= j < |a + b| ==> (a + b)[j] == b[j - |a|];
  }

  lemma {:induction false} SubEntriesPages(mappings: seq<(string, string)>, number: string, subs: seq<Subsection>, page: nat)
    ensures |SubEntries(mappings, number, subs, page)| == |subs|
    ensures PagesFrom(SubEntries(mappings, number, subs, page), page)
  {
    if subs != [] {
      var n := |subs| - 1;
      SubEntriesPages(mappings, number, subs[..n], page);
      PagesAppend(SubEntries(mappings, number, subs[..n], page),
        [TocItem(number + "." + NatToString(n + 1), SubTitle(mappings, subs[n].title), page + n)], page);
    }
  }

  lemma BlockPages(mappings: seq<(string, string)>, counter: nat, section: Section, page: nat)
    ensures |Block(mappings, counter, section, page)| == 1 + |section.subsections|
    ensures PagesFrom(Block(mappings, counter, section, page), page)
  {
    var head := [TocItem(NatToString(counter), MainTitle(mappings, section.title), page)];
    var subs := SubEntries(mappings, NatToString(counter), section.subsections, page + 1);
    SubEntriesPages(mappings, NatToString(counter), section.subsections, page + 1);
    PagesAppend(head, subs, page);
  }

  /** Every entry of the second pass sits on the page after the one before. */
  lemma {:induction false} EntriesPages(mappings: seq<(string, string)>, sections: seq<Section>)
    ensures |Entries(mappings, sections)| == Size(sections)
    ensures PagesFrom(Entries(mappings, sections), 4)
  {
    if sections != [] {
      var n := |sections| - 1;
      EntriesPages(mappings, sections[..n]);
      BlockPages(mappings, 3 + n, sections[n], 4 + Size(sections[..n]));
      PagesAppend(Entries(mappings, sections[..n]), Block(mappings, 3 + n, sections[n], 4 + Size(sections[..n])), 4);
    }
  }

  /** Entry `j` of the table of contents is on page `j + 2`, and the table
      opens with the two fixed entries. */
  lemma TocPages(lines: seq<string>)
    ensures |Toc(lines)| >= 2 && Toc(lines)[..2] == FixedItems
    ensures forall j :: 0 <= j < |Toc(lines)| ==> Toc(lines)[j].page == j + 2
  {
    var sections := Sections(Seqs.Map(Strip, lines));
    TocEntriesPages(SectionMappings, sections);
  }

  lemma TocEntriesPages(mappings: seq<(string, string)>, sections: seq<Section>)
    ensures var toc := FixedItems + Entries(mappings, sections);
      |toc| >= 2 && toc[..2] == FixedItems && forall j :: 0 <= j < |toc| ==> toc[j].page == j + 2
  {
    EntriesPages(mappings, sections);
    PagesAppend(FixedItems, Entries(mappings, sections), 2);
  }

  /** The entries of the first sections are a prefix of all of them. */
  lemma {:induction false} EntriesPrefix(mappings: seq<(string, string)>, sections: seq<Section>, k: nat)
    requires k <= |sections|
    ensures Size(sections[..k]) <= |Entries(mappings, sections)|
    ensures Entries(mappings, sections)[..Size(sections[..k])] == Entries(mappings, sections[..k])
    decreases |sections|
  {
    EntriesPages(mappings, sections);
    if k == |sections| {
      assert sections[..k] == sections;
    } else {
      var n := |sections| - 1;
      EntriesPrefix(mappings, sections[..n], k);
      assert sections[..n][..k] == sections[..k];
      EntriesPages(mappings, sections[..n]);
    }
  }

  /** Section `k` found by the first pass is numbered `3 + k`, its title is
      looked up in `section_mappings`, and its subsections follow it numbered
      `3 + k` dot 1, 2, ... with their titles kept. */
  lemma SectionNumbering(sections: seq<Section>, k: nat)
    requires k < |sections|
    ensures var entries := Entries(SectionMappings, sections);
      var at := Size(sections[..k]);
      var number := NatToString(3 + k);
      var subs := sections[k].subsections;
      at + 1 + |subs| <= |entries|
      && entries[at] == TocItem(number, MainTitle(SectionMappings, sections[k].title), 4 + at)
      && forall i :: 0 <= i < |subs| ==>
           entries[at + 1 + i] == TocItem(number + "." + NatToString(i + 1), subs[i].title, 5 + at + i)
  {
    SectionMappingsIdentity();
    SectionNumberingWith(SectionMappings, sections, k);
  }

  lemma SectionNumberingWith(mappings: seq<(string, string)>, sections: seq<Section>, k: nat)
    requires forall i :: 0 <= i < |mappings| ==> mappings[i].0 == mappings[i].1
    requires k < |sections|
    ensures var entries := Entries(mappings, sections);
      var at := Size(sections[..k]);
      var number := NatToString(3 + k);
      var subs := sections[k].subsections;
      at + 1 + |subs| <= |entries|
      && entries[at] == TocItem(number, MainTitle(mappings, sections[k].title), 4 + at)
      && forall i :: 0 <= i < |subs| ==>
           entries[at + 1 + i] == TocItem(number + "." + NatToString(i + 1), subs[i].title, 5 + at + i)
  {
    var whole, before, block, at := BlockInPlace(mappings, sections, k);
    SectionAt(mappings, whole, before, block, 3 + k, sections[k], at);
  }

  /** Entry `at` of `entries` is section `number` titled `title`, and its
      subsections follow it numbered `number` dot 1, 2, ... one page apart. */
  predicate Listed(entries: seq<TocItem>, at: nat, number: string, title: string, subs: seq<Subsection>) {
    at + 1 + |subs| <= |entries|
    && entries[at] == TocItem(number, title, 4 + at)
    && forall i :: 0 <= i < |subs| ==>
         entries[at + 1 + i] == TocItem(number + "." + NatToString(i + 1), subs[i].title, 5 + at + i)
  }

  /** Section `k`'s block follows the entries of the sections before it. */
  lemma BlockInPlace(mappings: seq<(string, string)>, sections: seq<Section>, k: nat)
      returns (whole: seq<TocItem>, before: seq<TocItem>, block: seq<TocItem>, at: nat)
    requires k < |sections|
    ensures whole == Entries(mappings, sections) && at == Size(sections[..k])
    ensures block == Block(mappings, 3 + k, sections[k], 4 + at) && Placed(whole, before, block, at)
  {
    whole, before, at := Entries(mappings, sections), Entries(mappings, sections[..k]), Size(sections[..k]);
    block := Block(mappings, 3 + k, sections[k], 4 + at);
    EntriesStep(mappings, sections, k);
    EntriesPrefix(mappings, sections, k + 1);
    EntriesPages(mappings, sections[..k]);
  }

  /** One section's entries: the section, then each subsection in order. */
  lemma BlockShape(mappings: seq<(string, string)>, counter: nat, section: Section, page: nat)
    requires forall i :: 0 <= i < |mappings| ==> mappings[i].0 == mappings[i].1
    ensures var block := Block(mappings, counter, section, page);
      var subs := section.subsections;
      |block| == 1 + |subs|
      && block[0] == TocItem(NatToString(counter), MainTitle(mappings, section.title), page)
      && forall i :: 0 <= i < |subs| ==>
           block[1 + i] == TocItem(NatToString(counter) + "." + NatToString(i + 1), subs[i].title, page + 1 + i)
  {
    SubEntriesShape(mappings, NatToString(counter), section.subsections, page + 1);
  }

  /** A section's block that follows `before` inside a prefix of `whole`. */
  lemma SectionAt(mappings: seq<(string, string)>, whole: seq<TocItem>, before: seq<TocItem>, block: seq<TocItem>,
                  counter: nat, section: Section, at: nat)
    requires forall i :: 0 <= i < |mappings| ==> mappings[i].0 == mappings[i].1
    requires block == Block(mappings, counter, section, 4 + at) && Placed(whole, before, block, at)
    ensures Listed(whole, at, NatToString(counter), MainTitle(mappings, section.title), section.subsections)
  {
    BlockShape(mappings, counter, section, 4 + at);
    BlockWithin(whole, before, block, at);
  }

  /** `block` follows `before`, of length `at`, at the start of `whole`. */
  predicate Placed<T(==)>(whole: seq<T>, before: seq<T>, block: seq<T>, at: nat) {
    |before + block| <= |whole| && whole[..|before + block|] == before + block && |before| == at
  }

  /** The elements of a block placed right after `before` in `whole`. */
  lemma BlockWithin<T>(whole: seq<T>, before: seq<T>, block: seq<T>, at: nat)
    requires Placed(whole, before, block, at)
    ensures forall j :: 0 <= j < |block| ==> whole[|before| + j] == block[j]
  {
    var joined := before + block;
    forall j | 0 <= j < |block| ensures whole[|before| + j] == block[j] {
      assert whole[|before| + j] == whole[..|joined|][|before| + j] == joined[|before| + j];
    }
  }
}
