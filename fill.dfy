/** `TitlePageWordGenerator.generate_with_proper_tables`: fills the opened
    template with what `extract_title_info` found. In order: the title line,
    the replacements on every body paragraph, the two title patterns on the
    last body paragraph, the replacements and the version date in the
    template's tables, the design, error and test tables, and the final
    cleanup. Saving the file is left to the caller. */
module TemplateFill {
  import opened Wrappers
  import opened Text
  import opened Seqs
  import opened DocModel
  import opened TitleExtract
  import opened TextComposers
  import opened TableBuilders
  import opened ParagraphEdit
  import opened TableInsert
  import TestingSection
  import FinalCleanup
  import opened Substitution
  import opened TitleRegex
  import VersionCells

  // ---- the title line ----

  /** A title line: its stripped text ends with `(Nama File)`. */
  predicate TitleLine(p: Paragraph) {
    EndsWith(Strip(ParagraphText(p)), NameFile)
  }

  function TitleAt(b: seq<Block>): nat -> bool {
    (j: nat) => j < |b| && b[j].Para? && TitleLine(b[j].paragraph)
  }

  /** `f"{ricefw} {filename}"` of the stripped id and file name. */
  function Heading(info: TitleInfo): string {
    Strip(info.title.ricefwId) + " " + Strip(info.title.fileName)
  }

  /** The first title line's whole stripped text replaced by the heading. */
  function Titled(b: seq<Block>, heading: string): seq<Block> {
    match Leftmost(TitleAt(b), 0, |b|)
    case None => b
    case Some(j) =>
      var p := b[j].paragraph;
      b[j := Para(Edit(p, Strip(ParagraphText(p)), heading))]
  }

  method ReplaceTitle(doc: Document, heading: string)
    modifies doc
    ensures doc.blocks == Titled(old(doc.blocks), heading)
  {
    var b := doc.blocks;
    for j := 0 to |b|
      invariant doc.blocks == b
      invariant Leftmost(TitleAt(b), 0, j) == None
    {
      if b[j].Para? && TitleLine(b[j].paragraph) {
        var p := b[j].paragraph;
        var _, q := ReplaceTextPreserveFormatting(p, Strip(ParagraphText(p)), heading);
        TitleFirst(b, j, heading);
        doc.SetParagraph(j, q);
        return;
      }
      LeftmostExtend(TitleAt(b), 0, j);
    }
  }

  /** The title line at `j`, with none before it, is the one retitled. */
  lemma TitleFirst(b: seq<Block>, j: nat, heading: string)
    requires TitleAt(b)(j) && Leftmost(TitleAt(b), 0, j) == None
    ensures Titled(b, heading) == b[j := Para(Edit(b[j].paragraph, Strip(ParagraphText(b[j].paragraph)), heading))]
  {
    LeftmostIs(TitleAt(b), 0, |b|, j);
  }

  /** The first title line gets the heading in place of its stripped text,
      and nothing else changes. */
  lemma {:induction false} TitledHeading(b: seq<Block>, heading: string)
    ensures match Leftmost(TitleAt(b), 0, |b|)
            case None => Titled(b, heading) == b
            case Some(j) =>
              var t := ParagraphText(b[j].paragraph);
              var r := Titled(b, heading);
              && |r| == |b| && r[j].Para?
              && ParagraphText(r[j].paragraph) == ReplaceAll(t, Strip(t), heading)
              && Contains(ParagraphText(r[j].paragraph), heading)
              && (forall i :: 0 <= i < |b| && i != j ==> r[i] == b[i])
              && (forall i :: 0 <= i < j ==> !(b[i].Para? && TitleLine(b[i].paragraph)))
  {
    match Leftmost(TitleAt(b), 0, |b|)
    case None =>
    case Some(j) =>
      var p := b[j].paragraph;
      var t := ParagraphText(p);
      StripInside(t);
      assert EndsWith(Strip(t), NameFile);
      ReplacedText(p, Strip(t), heading);
      ReplacePresent(t, Strip(t), heading);
      forall i | 0 <= i < j ensures !(b[i].Para? && TitleLine(b[i].paragraph)) {
        assert !TitleAt(b)(i);
      }
  }

  // ---- the replacements ----

  const ErrorLogPlaceholder := "[*Masukkan deskripsi tentang error log, laporan, dan/atau pesan yang relevan.*]"
  const ErrorLogText := "Error akan dicatat dalam log sistem SAP dan dapat dilihat melalui transaction ST22 (Dump Analysis) atau SLG1 (Application Log)."

  /** The `replacements` dictionary, in its order. */
  function Replacements(info: TitleInfo): seq<Pair> {
    [ Pair("(Nama Modul)", ""),
      Pair("Human Resource (Nama Modul)", info.title.moduleName),
      Pair("(DAPI ID)", info.title.ricefwId),
      Pair("Functional Specification Design (FSD)", info.title.documentType),
      Pair(info.title.ricefwId + " (DAPI ID) Functional Specification Design (FSD)", info.title.documentType),
      Pair("(Nama File)", ""),
      Pair("(Link NAS)", info.document.documentLocation),
      Pair("Draft awal oleh", "AI Generated"),
      Pair(DefaultProject, info.document.projectName),
      Pair("{{persyaratan_pengguna}}", info.requirements.userRequirements),
      Pair("{{asumsi}}", AssumptionsText(info)),
      Pair("{{nama_program_sap}}", info.sap.programName),
      Pair("{{transaksi_menu_sap}}", TransactionMenuText(info)),
      Pair("{{deskripsi_detail_report}}", ReportDescription(info)),
      Pair("{{otorisasi}}", AuthorizationInfo(info)),
      Pair("{{keterbatasan_desain}}", DesignConstraints(info)),
      Pair("{{latar_belakang}}", "N/A"),
      Pair("{{opsi}}", "N/A"),
      Pair("{{rekomendasi}}", "N/A"),
      Pair("{{persyaratan_pengujian}}", TestingRequirementsContent(info.design.tables.tests)),
      Pair("[*Masukkan kondisi fungsional yang diperlukan untuk pengujian.*]", ""),
      Pair("{{data_uji}}", info.testing.testDataLocation),
      Pair("{{transaksi}}", info.testing.testTransaction),
      Pair("{{menu_path}}", info.testing.testMenuPath) ]
  }

  // ---- the two title patterns, on the last body paragraph ----

  /** The block of the last body paragraph: the paragraph the loop variable
      of the replacement loop is left holding. */
  function LastParagraph(b: seq<Block>): (r: Option<nat>)
    ensures r.Some? ==> r.value < |b| && b[r.value].Para? && forall i :: r.value < i < |b| ==> b[i].Tbl?
    ensures r.None? ==> forall i :: 0 <= i < |b| ==> b[i].Tbl?
  {
    if b == [] then None
    else if b[|b| - 1].Para? then Some(|b| - 1)
    else LastParagraph(b[..|b| - 1])
  }

  /** The file-name pattern's match replaced by `ricefw_id file_name`, then
      the document-type pattern's match by the document type. */
  function TitlePatternsApplied(p: Paragraph, info: TitleInfo): Paragraph {
    var p1 := match FileMatch(ParagraphText(p))
              case Some(m) => Edit(p, m, info.title.ricefwId + " " + info.title.fileName)
              case None => p;
    match DocMatch(ParagraphText(p1))
    case Some(m) => Edit(p1, m, info.title.documentType)
    case None => p1
  }

  method RetitleLast(p: Paragraph, info: TitleInfo) returns (q: Paragraph)
    ensures q == TitlePatternsApplied(p, info)
  {
    q := p;
    var matchFile := FileMatch(ParagraphText(q));
    if matchFile.Some? {
      var _, r := ReplaceTextPreserveFormatting(q, matchFile.value, info.title.ricefwId + " " + info.title.fileName);
      q := r;
    }
    var matchDoc := DocMatch(ParagraphText(q));
    if matchDoc.Some? {
      var _, r := ReplaceTextPreserveFormatting(q, matchDoc.value, info.title.documentType);
      q := r;
    }
  }

  // ---- the tables ----

  /** `find_and_insert_table_after_text` when the builder gave rows (and,
      where the source asks, headers). */
  function InsertIf(b: seq<Block>, given: bool, search: string, t: TableData, title: string): seq<Block> {
    if given then AfterInsert(b, search, t.data, t.headers, title) else b
  }

  /** The six design tables, each after its own heading. */
  function DesignTablesInserted(b: seq<Block>, tables: Tables): seq<Block> {
    var sel := SelectionScreenTableData(tables.selection);
    var det := DetailProcessingTableData(tables.detail);
    var valid := DataConditionTableData(tables.validDatasets);
    var country := DataConditionTableData(tables.countryInfo);
    var c500c := DataConditionTableData(tables.currencyT500c);
    var c001 := DataConditionTableData(tables.currencyT001);
    var b1 := InsertIf(b, sel.data != [] && sel.headers != [], "Selection Screen", sel, "Selection Screen:");
    var b2 := InsertIf(b1, det.data != [] && det.headers != [], "Detail Processing", det, "Detail Processing:");
    var b3 := InsertIf(b2, valid.data != [], "Detail Process Only valid datasets", valid,
                       "Detail Process Only valid datasets:");
    var b4 := InsertIf(b3, country.data != [], "Form Get_Country_Info", country, "Form Get_Country_Info:");
    var b5 := InsertIf(b4, c500c.data != [], "Form Get_Currency_T500C", c500c, "Form Get_Currency_T500C:");
    InsertIf(b5, c001.data != [], "Form Get_Currency_T001", c001, "Form Get_Currency_T001:")
  }

  /** The error table and the error-log sentence, then the testing table,
      with `{{kondisi_pengujian_tabel}}` as the fallback anchor. */
  function ErrorAndTestingInserted(b: seq<Block>, tables: Tables): seq<Block> {
    var err := ErrorHandlingTableData(tables.errors);
    var test := TestingRequirementsTableData(tables.tests);
    var b1 := if err.data != [] && err.headers != [] then
                MapParagraphs(AfterInsert(b, "{{potensi_error}}", err.data, err.headers, "Potensi Error:"),
                              SubstituteRule([Pair(ErrorLogPlaceholder, ErrorLogText)]))
              else b;
    if test.data != [] && test.headers != [] then
      var (inserted, b2) := TestingSection.AfterTesting(b1, test.data, test.headers);
      if inserted then b2 else AfterInsert(b2, "{{kondisi_pengujian_tabel}}", test.data, test.headers, "")
    else b1
  }

  /** One table of the sequence: inserted when `given` holds. */
  method InsertWhen(doc: Document, given: bool, search: string, t: TableData, title: string)
    modifies doc
    ensures doc.blocks == InsertIf(old(doc.blocks), given, search, t, title)
  {
    if given {
      var _ := FindAndInsertTableAfterText(doc, search, t.data, t.headers, title);
    }
  }

  method InsertDesignTables(doc: Document, tables: Tables)
    modifies doc
    ensures doc.blocks == DesignTablesInserted(old(doc.blocks), tables)
  {
    var sel := SelectionScreenTableData(tables.selection);
    InsertWhen(doc, sel.data != [] && sel.headers != [], "Selection Screen", sel, "Selection Screen:");
    var det := DetailProcessingTableData(tables.detail);
    InsertWhen(doc, det.data != [] && det.headers != [], "Detail Processing", det, "Detail Processing:");
    var valid := DataConditionTableData(tables.validDatasets);
    InsertWhen(doc, valid.data != [], "Detail Process Only valid datasets", valid,
               "Detail Process Only valid datasets:");
    var country := DataConditionTableData(tables.countryInfo);
    InsertWhen(doc, country.data != [], "Form Get_Country_Info", country, "Form Get_Country_Info:");
    var c500c := DataConditionTableData(tables.currencyT500c);
    InsertWhen(doc, c500c.data != [], "Form Get_Currency_T500C", c500c, "Form Get_Currency_T500C:");
    var c001 := DataConditionTableData(tables.currencyT001);
    InsertWhen(doc, c001.data != [], "Form Get_Currency_T001", c001, "Form Get_Currency_T001:");
  }

  method InsertErrorAndTestingTables(doc: Document, tables: Tables)
    modifies doc
    ensures doc.blocks == ErrorAndTestingInserted(old(doc.blocks), tables)
  {
    var err := ErrorHandlingTableData(tables.errors);
    if err.data != [] && err.headers != [] {
      var _ := FindAndInsertTableAfterText(doc, "{{potensi_error}}", err.data, err.headers, "Potensi Error:");
      SubstituteBody(doc, [Pair(ErrorLogPlaceholder, ErrorLogText)]);
    }
    var test := TestingRequirementsTableData(tables.tests);
    if test.data != [] && test.headers != [] {
      var inserted := TestingSection.FindAndReplaceTestingSection(doc, test.data, test.headers);
      if !inserted {
        var _ := FindAndInsertTableAfterText(doc, "{{kondisi_pengujian_tabel}}", test.data, test.headers, "");
      }
    }
  }

  // ---- the whole fill ----

  /** The body after the title line and the replacements. */
  function Prepared(b: seq<Block>, heading: string, pairs: seq<Pair>): seq<Block> {
    MapParagraphs(Titled(b, heading), SubstituteRule(pairs))
  }

  /** The rest of the fill, once the last body paragraph is known to be at
      `j`: the two title patterns there, the table cells, the inserted
      tables and the final cleanup. */
  function Completed(b1: seq<Block>, j: nat, info: TitleInfo, pairs: seq<Pair>): seq<Block>
    requires j < |b1| && b1[j].Para?
  {
    var b2 := b1[j := Para(TitlePatternsApplied(b1[j].paragraph, info))];
    TablesDone(VersionCells.BlocksFilled(b2, pairs, info.document.generated.date), info.design.tables)
  }

  /** The inserted tables, then the final cleanup. */
  function TablesDone(b: seq<Block>, tables: Tables): seq<Block> {
    MapParagraphs(ErrorAndTestingInserted(DesignTablesInserted(b, tables), tables), FinalCleanup.FinishRule())
  }

  /** The fill with the heading and the replacement pairs given. */
  function FilledWith(b: seq<Block>, info: TitleInfo, heading: string, pairs: seq<Pair>): Option<seq<Block>> {
    var b1 := Prepared(b, heading, pairs);
    match LastParagraph(b1)
    case None => None
    case Some(j) => Some(Completed(b1, j, info, pairs))
  }

  /** The body `generate_with_proper_tables` saves, or nothing when it
      returns false: the template is missing, or the template has no body
      paragraph, so that the replacement loop never binds `paragraph` and the
      title patterns raise `NameError`. */
  function Generated(b: seq<Block>, info: TitleInfo, templateFound: bool): Option<seq<Block>> {
    if templateFound then FilledWith(b, info, Heading(info), Replacements(info)) else None
  }

  /** Fills the opened template `doc`; reports whether a document was
      produced. */
  method GenerateWithProperTables(doc: Document, info: TitleInfo, templateFound: bool) returns (ok: bool)
    modifies doc
    ensures var r := Generated(old(doc.blocks), info, templateFound);
            ok == r.Some? && (ok ==> doc.blocks == r.value)
  {
    if !templateFound {
      return false;
    }
    ok := FillWith(doc, info, Heading(info), Replacements(info));
  }

  /** The fill once the template is open. */
  method FillWith(doc: Document, info: TitleInfo, heading: string, pairs: seq<Pair>) returns (ok: bool)
    modifies doc
    ensures var r := FilledWith(old(doc.blocks), info, heading, pairs);
            ok == r.Some? && (ok ==> doc.blocks == r.value)
  {
    PrepareFill(doc, heading, pairs);
    var last := LastParagraph(doc.blocks);
    if last.None? {
      return false;
    }
    CompleteFill(doc, last.value, info, pairs);
    return true;
  }

  /** The title line, then the replacements on every body paragraph. */
  method PrepareFill(doc: Document, heading: string, pairs: seq<Pair>)
    modifies doc
    ensures doc.blocks == Prepared(old(doc.blocks), heading, pairs)
  {
    ReplaceTitle(doc, heading);
    SubstituteBody(doc, pairs);
  }

  /** Everything after the replacement loop. */
  method CompleteFill(doc: Document, j: nat, info: TitleInfo, pairs: seq<Pair>)
    requires j < |doc.blocks| && doc.blocks[j].Para?
    modifies doc
    ensures doc.blocks == Completed(old(doc.blocks), j, info, pairs)
  {
    var q := RetitleLast(doc.blocks[j].paragraph, info);
    doc.SetParagraph(j, q);
    VersionCells.FillTables(doc, pairs, info.document.generated.date);
    ghost var b3 := doc.blocks;
    InsertDesignTables(doc, info.design.tables);
    InsertErrorAndTestingTables(doc, info.design.tables);
    FinalCleanup.FinishDocument(doc);
    assert doc.blocks == TablesDone(b3, info.design.tables);
  }

  // ---- what the fill promises ----

  /** Every block keeps its kind through a paragraph pass. */
  lemma MapParagraphsKinds(b: seq<Block>, g: (nat, Paragraph) -> Paragraph)
    ensures |MapParagraphs(b, g)| == |b|
    ensures forall i :: 0 <= i < |b| ==> MapParagraphs(b, g)[i].Para? == b[i].Para?
  {
    forall i | 0 <= i < |b| ensures MapParagraphs(b, g)[i].Para? == b[i].Para? {
      MapParagraphsAt(b, g, i);
    }
  }

  /** A body without paragraphs has only tables. */
  lemma {:induction false} NoParagraphsOnlyTables(b: seq<Block>)
    ensures BodyParagraphs(b) == [] <==> forall i :: 0 <= i < |b| ==> b[i].Tbl?
    decreases |b|
  {
    if b != [] {
      NoParagraphsOnlyTables(b[..|b| - 1]);
      assert forall i :: 0 <= i < |b| - 1 ==> b[..|b| - 1][i] == b[i];
    }
  }

  /** Retitling keeps every block's kind. */
  lemma TitledKinds(b: seq<Block>, heading: string)
    ensures |Titled(b, heading)| == |b|
    ensures forall i :: 0 <= i < |b| ==> Titled(b, heading)[i].Para? == b[i].Para?
  {
    match Leftmost(TitleAt(b), 0, |b|)
    case None =>
    case Some(j) =>
      var p := b[j].paragraph;
      assert Titled(b, heading) == b[j := Para(Edit(p, Strip(ParagraphText(p)), heading))];
  }

  /** The title line and the replacements keep every block's kind. */
  lemma PreparedKinds(b: seq<Block>, heading: string, pairs: seq<Pair>)
    ensures |Prepared(b, heading, pairs)| == |b|
    ensures forall i :: 0 <= i < |b| ==> Prepared(b, heading, pairs)[i].Para? == b[i].Para?
  {
    TitledKinds(b, heading);
    MapParagraphsKinds(Titled(b, heading), SubstituteRule(pairs));
  }

  /** The title patterns find a paragraph to work on exactly when the
      template has a body paragraph. */
  lemma PreparedLast(b: seq<Block>, heading: string, pairs: seq<Pair>)
    ensures LastParagraph(Prepared(b, heading, pairs)).Some? <==> BodyParagraphs(b) != []
  {
    PreparedKinds(b, heading, pairs);
    NoParagraphsOnlyTables(b);
  }

  /** A document comes out exactly when the template was found and has at
      least one body paragraph. */
  lemma {:induction false} GeneratedWhen(b: seq<Block>, info: TitleInfo, templateFound: bool)
    ensures Generated(b, info, templateFound).Some? <==> templateFound && BodyParagraphs(b) != []
  {
    FilledWhen(b, info, Heading(info), Replacements(info));
  }

  lemma {:induction false} FilledWhen(b: seq<Block>, info: TitleInfo, heading: string, pairs: seq<Pair>)
    ensures FilledWith(b, info, heading, pairs).Some? <==> BodyParagraphs(b) != []
  {
    PreparedLast(b, heading, pairs);
  }
}
